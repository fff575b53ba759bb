/** Properties of the Titan accessors and configurations. */
module AmazonProperties {
  import opened Wrappers
  import opened Json
  import opened Validation
  import opened Amazon

  /** The streaming accessors return `OutputText` and `CompletionReason`;
      the token counts and `Index` affect neither. */
  lemma StreamingAccessorsIgnoreCounts(r: TitanTextStreamingResponse, total: Option<int>, index: Option<int>, input: Option<int>)
    ensures var s := r.(totalOutputTextTokenCount := total, index := index, inputTextTokenCount := input);
      StreamingText(s) == StreamingText(r) && StreamingStopReason(s) == StreamingStopReason(r)
  {
  }

  /** Both accessors read the first result, and are null when `Results` is
      null or empty. */
  lemma TextResponseFirstResult(r: TitanTextResponse)
    ensures (r.results.None? || r.results == Some([])) ==>
      TextResponseText(r).None? && TextResponseStopReason(r).None?
    ensures r.results.Some? && r.results.value != [] ==>
      TextResponseText(r) == r.results.value[0].outputText &&
      TextResponseStopReason(r) == r.results.value[0].completionReason
  {
  }

  /** Results after the first, and the input token count, never matter. */
  lemma TextResponseIgnoresLaterResults(first: AmazonTitanTextOutput, rest1: seq<AmazonTitanTextOutput>,
                                        rest2: seq<AmazonTitanTextOutput>, n1: int, n2: int)
    ensures TextResponseText(TitanTextResponse(n1, Some([first] + rest1))) ==
            TextResponseText(TitanTextResponse(n2, Some([first] + rest2)))
    ensures TextResponseStopReason(TitanTextResponse(n1, Some([first] + rest1))) ==
            TextResponseStopReason(TitanTextResponse(n2, Some([first] + rest2)))
  {
  }

  lemma QualityNameRoundTrip(q: ImageQuality)
    ensures QualityFromName(QualityName(q)) == Some(q)
    ensures QualityName(Standard) != QualityName(Premium)
  {
  }

  lemma ImageGenerationConfigValidation(c: TitanImageGenerationConfig)
    ensures FirstFailure(ImageGenerationConfigChecks(c)).None? <==> ImageGenerationConfigValid(c)
  {
    var checks := ImageGenerationConfigChecks(c);
    assert (forall i :: 0 <= i < |checks| ==> checks[i].passes) <==>
      checks[0].passes && checks[1].passes && checks[2].passes && checks[3].passes && checks[4].passes;
  }

  /** The seed bound is the declared 214783647: the largest 32-bit integer
      2147483647 is rejected although a C# int can hold it. */
  lemma SeedBoundAsDeclared(c: TitanImageGenerationConfig)
    requires ImageGenerationConfigValid(c.(seed := 0))
    ensures ImageGenerationConfigValid(c.(seed := 214783647))
    ensures !ImageGenerationConfigValid(c.(seed := 214783648))
    ensures !ImageGenerationConfigValid(c.(seed := 2147483647))
  {
  }

  /** A new configuration violates the ranges of `numberOfImages`, `height`,
      `width` and `cfgScale`, and serializes to quality and seed only. */
  lemma DefaultImageGenerationConfigShape()
    ensures !ImageGenerationConfigValid(DefaultImageGenerationConfig)
    ensures FirstFailure(ImageGenerationConfigChecks(DefaultImageGenerationConfig)) == Some("NumberOfImages")
    ensures var c := DefaultImageGenerationConfig;
      !(1 <= c.numberOfImages) && !(1 <= c.height) && !(1 <= c.width) && !(1.0 <= c.cfgScale)
    ensures SerializeImageGenerationConfig(DefaultImageGenerationConfig) ==
      [("quality", JString("standard")), ("seed", JInt(0))]
  {
  }

  /** Zero `numberOfImages`, `height`, `width` and `cfgScale` are omitted and
      other values written; `quality` and `seed` are always written. */
  lemma ImageGenerationConfigShape(c: TitanImageGenerationConfig)
    ensures var fs := SerializeImageGenerationConfig(c);
      && (Lookup(fs, "numberOfImages").None? <==> c.numberOfImages == 0)
      && (c.numberOfImages != 0 ==> Lookup(fs, "numberOfImages") == Some(JInt(c.numberOfImages)))
      && Lookup(fs, "quality") == Some(JString(QualityName(c.quality)))
      && (Lookup(fs, "cfgScale").None? <==> c.cfgScale == 0.0)
      && (c.cfgScale != 0.0 ==> Lookup(fs, "cfgScale") == Some(JReal(c.cfgScale)))
      && (Lookup(fs, "height").None? <==> c.height == 0)
      && (c.height != 0 ==> Lookup(fs, "height") == Some(JInt(c.height)))
      && (Lookup(fs, "width").None? <==> c.width == 0)
      && (c.width != 0 ==> Lookup(fs, "width") == Some(JInt(c.width)))
      && Lookup(fs, "seed") == Some(JInt(c.seed))
      && DistinctKeys(fs)
  {
    var props := ImageGenerationConfigProperties(c);
    WriteLookup(props);
    assert props[0].0 == "numberOfImages" && props[1].0 == "quality" && props[2].0 == "cfgScale";
    assert props[3].0 == "height" && props[4].0 == "width" && props[5].0 == "seed";
  }

  /** A valid configuration has every range-checked property non-zero, so
      all six properties are written, in order. */
  lemma ValidImageGenerationConfigWritesAll(c: TitanImageGenerationConfig)
    requires ImageGenerationConfigValid(c)
    ensures Keys(SerializeImageGenerationConfig(c)) == ["numberOfImages", "quality", "cfgScale", "height", "width", "seed"]
  {
    var props := ImageGenerationConfigProperties(c);
    assert Write(props[5..]) == [("seed", JInt(c.seed))];
    assert Write(props[4..]) == [("width", JInt(c.width))] + Write(props[5..]);
    assert Write(props[3..]) == [("height", JInt(c.height))] + Write(props[4..]);
    assert Write(props[2..]) == [("cfgScale", JReal(c.cfgScale))] + Write(props[3..]);
    assert Write(props[1..]) == [("quality", JString(QualityName(c.quality)))] + Write(props[2..]);
    assert Write(props) == [("numberOfImages", JInt(c.numberOfImages))] + Write(props[1..]);
  }

  lemma ImageGenerationConfigRoundTrip(c: TitanImageGenerationConfig)
    ensures DeserializeImageGenerationConfig(SerializeImageGenerationConfig(c)) == Some(c)
  {
    ImageGenerationConfigShape(c);
    QualityNameRoundTrip(c.quality);
  }

  /** `negativeText` is omitted exactly when null; `text` is always written. */
  lemma TextToImageParamsShape(p: TitanImageTextToImageParams)
    ensures var fs := SerializeTextToImageParams(p);
      && Lookup(fs, "text") == Some(JString(p.text))
      && Lookup(fs, "negativeText") == OptString(p.negativeText)
  {
    var props := [("text", Some(JString(p.text))), ("negativeText", OptString(p.negativeText))];
    WriteLookup(props);
    assert props[0].0 == "text" && props[1].0 == "negativeText";
  }

  /** Exactly 256, 384 and 1024 are accepted; 512 and null are not. */
  lemma EmbeddingConfigAllowedValues(n: int)
    ensures EmbeddingConfigValid(TitanMultimodalEmbeddingConfig(Some(n))) <==> n == 256 || n == 384 || n == 1024
    ensures !EmbeddingConfigValid(TitanMultimodalEmbeddingConfig(Some(512)))
    ensures !EmbeddingConfigValid(TitanMultimodalEmbeddingConfig(None))
    ensures FirstFailure(EmbeddingConfigChecks(TitanMultimodalEmbeddingConfig(Some(n)))).None? <==>
      EmbeddingConfigValid(TitanMultimodalEmbeddingConfig(Some(n)))
  {
  }

  /** The single property is always written under "outputEmbeddingLength",
      as JSON null when the length is null, and reads back unchanged. */
  lemma EmbeddingConfigShape(c: TitanMultimodalEmbeddingConfig)
    ensures Keys(SerializeEmbeddingConfig(c)) == ["outputEmbeddingLength"]
    ensures c.outputEmbeddingLength.None? ==> Lookup(SerializeEmbeddingConfig(c), "outputEmbeddingLength") == Some(JNull)
    ensures DeserializeEmbeddingConfig(SerializeEmbeddingConfig(c)) == Some(c)
  {
  }
}
