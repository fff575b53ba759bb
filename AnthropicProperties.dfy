/** Properties of the Anthropic accessors, the chunk union and the two
    configurations. */
module AnthropicProperties {
  import opened Wrappers
  import opened Json
  import opened Validation
  import opened Anthropic

  // ---------------------------------------------------------------------
  // Claude text completion response

  /** `GetResponse` is `Completion` and `GetStopReason` is `StopReason`;
      `Stop` affects neither. */
  lemma ClaudeResponseAccessors(r: ClaudeResponse, stop: Option<string>)
    ensures ClaudeResponseText(r) == r.completion
    ensures ClaudeResponseStopReason(r) == r.stopReason
    ensures ClaudeResponseText(r.(stop := stop)) == ClaudeResponseText(r)
    ensures ClaudeResponseStopReason(r.(stop := stop)) == ClaudeResponseStopReason(r)
  {
  }

  // ---------------------------------------------------------------------
  // Claude Messages response

  /** `GetStopReason` is `StopReason` unchanged, and no field other than
      `Content` affects `GetResponse`. */
  lemma MessagesResponseAccessors(r: ClaudeMessagesResponse, s: ClaudeMessagesResponse)
    requires s.content == r.content
    ensures MessagesResponseStopReason(r) == r.stopReason
    ensures MessagesResponseText(s) == MessagesResponseText(r)
  {
  }

  // ---------------------------------------------------------------------
  // The chunk union

  /** The discriminator is "type"; the six registered tags are pairwise
      distinct and map one-to-one onto the six chunk kinds, and no other
      string selects a kind. */
  lemma ChunkTagsOneToOne(tag: string)
    ensures TypeDiscriminator == "type"
    ensures forall k :: KindOfTag(Tag(k)) == Some(k)
    ensures forall k1, k2 :: Tag(k1) == Tag(k2) ==> k1 == k2
    ensures KindOfTag(tag).Some? <==>
      tag in {"message_start", "content_block_start", "content_block_delta",
              "content_block_stop", "message_delta", "message_stop"}
  {
    forall k ensures KindOfTag(Tag(k)) == Some(k) {
      match k
      case MessageStart =>
      case ContentBlockStart =>
      case ContentBlockDelta =>
      case ContentBlockStop =>
      case MessageDeltaKind =>
      case MessageStop =>
    }
  }

  /** Only a message-delta chunk can carry a stop reason, and it carries
      `Delta.StopReason` (null when `Delta` is null); `Usage` and
      `StopSequence` affect neither accessor, and its text is "". */
  lemma OnlyMessageDeltaStops(c: ClaudeMessagesChunk)
    ensures ChunkStopReason(c).Some? ==> c.MessageDeltaChunk?
    ensures c.MessageDeltaChunk? ==>
      && ChunkText(c) == Returned(Some(""))
      && ChunkStopReason(c) == (if c.messageDelta.None? then None else c.messageDelta.value.stopReason)
  {
  }

  lemma MessageDeltaIgnoresUsageAndStopSequence(
    d: Option<string>, seq1: Option<string>, seq2: Option<string>,
    u1: Option<MessageDeltaChunkUsage>, u2: Option<MessageDeltaChunkUsage>)
    ensures ChunkStopReason(MessageDeltaChunk(Some(MessageDelta(d, seq1)), u1))
         == ChunkStopReason(MessageDeltaChunk(Some(MessageDelta(d, seq2)), u2))
    ensures ChunkText(MessageDeltaChunk(Some(MessageDelta(d, seq1)), u1))
         == ChunkText(MessageDeltaChunk(None, u2))
  {
  }

  /** Message start: null message gives null; otherwise the first content
      block's text, null for no block, a cast failure for an image block. */
  lemma MessageStartText(t: Option<string>, m: ClaudeMessagesResponse)
    ensures ChunkText(MessageStartChunk(t, None)) == Returned(None)
    ensures ChunkStopReason(MessageStartChunk(t, Some(m))) == None
    ensures m.content == Some([]) ==> ChunkText(MessageStartChunk(t, Some(m))) == Returned(None)
    ensures m.content.Some? && m.content.value != [] ==>
      ChunkText(MessageStartChunk(t, Some(m))) ==
        (match m.content.value[0]
         case ClaudeTextContent(s) => Returned(Some(s))
         case ClaudeImageContent(_) => InvalidCast)
  {
  }

  /** Content block start and delta: the block's (delta's) `Text`, null when
      the block is null, whatever `Index` and the block's `Type`; no stop
      reason. */
  lemma ContentBlockText(i1: Option<int>, i2: Option<int>, t1: Option<string>, t2: Option<string>, text: Option<string>)
    ensures ChunkText(ContentBlockStartChunk(i1, Some(BlockStartChunkContentBlock(t1, text)))) == Returned(text)
    ensures ChunkText(ContentBlockStartChunk(i1, Some(BlockStartChunkContentBlock(t1, text))))
         == ChunkText(ContentBlockStartChunk(i2, Some(BlockStartChunkContentBlock(t2, text))))
    ensures ChunkText(ContentBlockStartChunk(i1, None)) == Returned(None)
    ensures ChunkStopReason(ContentBlockStartChunk(i1, None)) == None
    ensures ChunkText(ContentBlockDeltaChunk(i1, Some(BlockDeltaChunkContentBlock(t1, text)))) == Returned(text)
    ensures ChunkText(ContentBlockDeltaChunk(i1, Some(BlockDeltaChunkContentBlock(t1, text))))
         == ChunkText(ContentBlockDeltaChunk(i2, Some(BlockDeltaChunkContentBlock(t2, text))))
    ensures ChunkText(ContentBlockDeltaChunk(i1, None)) == Returned(None)
    ensures ChunkStopReason(ContentBlockDeltaChunk(i1, None)) == None
  {
  }

  /** Content block stop answers "" and null whatever its index; message
      stop answers null and null whatever its metrics. */
  lemma StopChunksConstant(i: Option<int>, metrics: Option<AmazonBedrockInvocationMetrics>)
    ensures ChunkText(ContentBlockStopChunk(i)) == Returned(Some(""))
    ensures ChunkStopReason(ContentBlockStopChunk(i)) == None
    ensures ChunkText(MessageStopChunk(metrics)) == Returned(None)
    ensures ChunkStopReason(MessageStopChunk(metrics)) == None
  {
  }

  /** The lifecycle order of one Messages stream. */
  const Lifecycle: seq<ChunkKind> :=
    [MessageStart, ContentBlockStart, ContentBlockDelta, ContentBlockStop, MessageDeltaKind, MessageStop]

  /** In a stream that follows the lifecycle, only the fifth chunk (the
      message delta) can report a stop reason, and it does whenever its delta
      carries one. */
  lemma LifecycleStopReason(cs: seq<ClaudeMessagesChunk>)
    requires |cs| == |Lifecycle|
    requires forall i :: 0 <= i < |cs| ==> KindOf(cs[i]) == Lifecycle[i]
    ensures forall i :: 0 <= i < |cs| && i != 4 ==> ChunkStopReason(cs[i]).None?
    ensures cs[4].MessageDeltaChunk?
    ensures cs[4].messageDelta.Some? ==> ChunkStopReason(cs[4]) == cs[4].messageDelta.value.stopReason
  {
    assert KindOf(cs[4]) == MessageDeltaKind;
    forall i | 0 <= i < |cs| && i != 4 ensures ChunkStopReason(cs[i]).None? {
      assert KindOf(cs[i]) != MessageDeltaKind;
    }
  }

  // ---------------------------------------------------------------------
  // Claude text-completion configuration

  /** Validation throws exactly when a declared range is violated, naming a
      violated property. */
  lemma TextGenerationConfigValidation(c: ClaudeTextGenerationConfig)
    ensures FirstFailure(TextGenerationConfigChecks(c)).None? <==> TextGenerationConfigValid(c)
  {
    var checks := TextGenerationConfigChecks(c);
    assert (forall i :: 0 <= i < |checks| ==> checks[i].passes) <==>
      checks[0].passes && checks[1].passes && checks[2].passes && checks[3].passes;
  }

  /** The default configuration is valid and serializes to the single
      property `max_tokens_to_sample: 200`. */
  lemma DefaultTextGenerationConfigShape()
    ensures TextGenerationConfigValid(DefaultTextGenerationConfig)
    ensures SerializeTextGenerationConfig(DefaultTextGenerationConfig) == [("max_tokens_to_sample", JInt(200))]
  {
  }

  /** Every property reads back from the serialized object as its value:
      null temperature, top_p, top_k and stop_sequences are omitted,
      max_tokens_to_sample is always written; no two properties share a
      name, and no "prompt" property is written. */
  lemma TextGenerationConfigShape(c: ClaudeTextGenerationConfig)
    ensures var fs := SerializeTextGenerationConfig(c);
      && Lookup(fs, "temperature") == OptReal(c.temperature)
      && Lookup(fs, "top_p") == OptReal(c.topP)
      && Lookup(fs, "top_k") == OptInt(c.topK)
      && Lookup(fs, "max_tokens_to_sample") == Some(JInt(c.maxTokensToSample))
      && Lookup(fs, "stop_sequences") == OptStrings(c.stopSequences)
      && Lookup(fs, "prompt").None?
      && DistinctKeys(fs)
  {
    var props := TextGenerationConfigProperties(c);
    WriteLookup(props);
    assert props[0].0 == "temperature" && props[1].0 == "top_p" && props[2].0 == "top_k";
    assert props[3].0 == "max_tokens_to_sample" && props[4].0 == "stop_sequences";
    WriteAbsent(props, "prompt");
  }

  /** Serializing and reading back gives the same configuration. */
  lemma TextGenerationConfigRoundTrip(c: ClaudeTextGenerationConfig)
    ensures DeserializeTextGenerationConfig(SerializeTextGenerationConfig(c)) == Some(c)
  {
    TextGenerationConfigShape(c);
    if c.stopSequences.Some? {
      AsStringsRoundTrip(c.stopSequences.value);
    }
  }

  // ---------------------------------------------------------------------
  // Claude Messages configuration

  lemma MessagesConfigValidation(c: ClaudeMessagesConfig)
    ensures FirstFailure(MessagesConfigChecks(c)).None? <==> MessagesConfigValid(c)
  {
    var checks := MessagesConfigChecks(c);
    assert (forall i :: 0 <= i < |checks| ==> checks[i].passes) <==>
      checks[0].passes && checks[1].passes && checks[2].passes;
  }

  /** `anthropic_version` is always written first with its constant value;
      `max_tokens` and `messages` are always written; null `system`,
      `temperature`, `top_p`, `top_k` and `stop_sequences` are omitted. */
  lemma MessagesConfigShape(c: ClaudeMessagesConfig)
    ensures var fs := SerializeMessagesConfig(c);
      && fs[0] == ("anthropic_version", JString("bedrock-2023-05-31"))
      && Lookup(fs, "max_tokens") == Some(JInt(c.maxTokens))
      && Lookup(fs, "system") == OptString(c.system)
      && Lookup(fs, "messages") == Some(JArray(MessagesToJson(c.messages)))
      && Lookup(fs, "temperature") == OptReal(c.temperature)
      && Lookup(fs, "top_p") == OptReal(c.topP)
      && Lookup(fs, "top_k") == OptInt(c.topK)
      && Lookup(fs, "stop_sequences") == OptStrings(c.stopSequences)
      && DistinctKeys(fs)
  {
    var props := MessagesConfigProperties(c);
    WriteLookup(props);
    assert props[1].0 == "max_tokens" && props[2].0 == "system" && props[3].0 == "messages";
    assert props[4].0 == "temperature" && props[5].0 == "top_p" && props[6].0 == "top_k";
    assert props[7].0 == "stop_sequences";
  }

  lemma ContentRoundTrip(b: ClaudeContent)
    ensures ContentFromJson(ContentToJson(b)) == Some(b)
  {
    match b
    case ClaudeTextContent(t) =>
      var fs := [("type", JString("text")), ("text", JString(t))];
      assert fs[1..] == [("text", JString(t))];
      assert Lookup(fs, "type") == Some(JString("text"));
      assert Lookup(fs, "text") == Some(JString(t));
    case ClaudeImageContent(src) =>
      var inner := [("type", JString(ImageSourceType)), ("media_type", JString(src.mediaType)), ("data", JString(src.data))];
      var fs := [("type", JString("image")), ("source", JObject(inner))];
      assert fs[1..] == [("source", JObject(inner))];
      assert Lookup(fs, "type") == Some(JString("image"));
      assert Lookup(fs, "source") == Some(JObject(inner));
      assert inner[1..] == [("media_type", JString(src.mediaType)), ("data", JString(src.data))];
      assert inner[1..][1..] == [("data", JString(src.data))];
      assert Lookup(inner, "media_type") == Some(JString(src.mediaType));
      assert Lookup(inner[1..][1..], "data") == Some(JString(src.data));
      assert Lookup(inner[1..], "data") == Some(JString(src.data));
      assert Lookup(inner, "data") == Some(JString(src.data));
  }

  lemma MessageRoundTrip(m: ClaudeMessage)
    requires ContentsFromJson(ContentsToJson(m.content)) == Some(m.content)
    ensures MessageFromJson(MessageToJson(m)) == Some(m)
  {
    var fs := [("role", JString(m.role)), ("content", JArray(ContentsToJson(m.content)))];
    assert fs[1..] == [("content", JArray(ContentsToJson(m.content)))];
    assert Lookup(fs, "role") == Some(JString(m.role));
    assert Lookup(fs, "content") == Some(JArray(ContentsToJson(m.content)));
  }

  lemma {:induction false} ContentsRoundTrip(bs: seq<ClaudeContent>)
    ensures ContentsFromJson(ContentsToJson(bs)) == Some(bs)
  {
    if bs != [] {
      assert ContentsToJson(bs)[1..] == ContentsToJson(bs[1..]);
      ContentsRoundTrip(bs[1..]);
      ContentRoundTrip(bs[0]);
      assert [bs[0]] + bs[1..] == bs;
    }
  }

  lemma {:induction false} MessagesRoundTrip(ms: seq<ClaudeMessage>)
    ensures MessagesFromJson(MessagesToJson(ms)) == Some(ms)
  {
    if ms != [] {
      assert MessagesToJson(ms)[1..] == MessagesToJson(ms[1..]);
      MessagesRoundTrip(ms[1..]);
      ContentsRoundTrip(ms[0].content);
      MessageRoundTrip(ms[0]);
      assert [ms[0]] + ms[1..] == ms;
    }
  }

  /** Reading an object whose properties carry the values of `c`, whatever
      else it holds, gives back `c`. */
  lemma MessagesConfigRead(fs: Fields, c: ClaudeMessagesConfig)
    requires Lookup(fs, "max_tokens") == Some(JInt(c.maxTokens))
    requires Lookup(fs, "messages") == Some(JArray(MessagesToJson(c.messages)))
    requires MessagesFromJson(MessagesToJson(c.messages)) == Some(c.messages)
    requires ReadString(fs, "system") == Some(c.system)
    requires ReadReal(fs, "temperature") == Some(c.temperature)
    requires ReadReal(fs, "top_p") == Some(c.topP)
    requires ReadInt(fs, "top_k") == Some(c.topK)
    requires ReadStrings(fs, "stop_sequences") == Some(c.stopSequences)
    ensures DeserializeMessagesConfig(fs) == Some(c)
  {
  }

  /** Serializing and reading back gives the same configuration. */
  lemma MessagesConfigRoundTrip(c: ClaudeMessagesConfig)
    ensures DeserializeMessagesConfig(SerializeMessagesConfig(c)) == Some(c)
  {
    var fs := SerializeMessagesConfig(c);
    MessagesConfigShape(c);
    MessagesRoundTrip(c.messages);
    if c.stopSequences.Some? {
      AsStringsRoundTrip(c.stopSequences.value);
    }
    MessagesConfigRead(fs, c);
  }
}
