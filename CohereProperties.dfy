/** Properties of the Command chunk accessors and the Embed configuration. */
module CohereProperties {
  import opened Wrappers
  import opened Json
  import opened Cohere

  /** `Reason` has exactly four members whose names are pairwise distinct
      and read back as the member. */
  lemma ReasonNames(r: Reason)
    ensures r in Reasons
    ensures ReasonFromName(ReasonName(r)) == Some(r)
    ensures forall i, j :: 0 <= i < j < |Reasons| ==> ReasonName(Reasons[i]) != ReasonName(Reasons[j])
    ensures |Reasons| == 4
  {
  }

  /** The stop reason is non-null exactly when `FinishReason` is present,
      and names it. */
  lemma CommandStopReasonSpec(r: CommandStreamingResponse)
    ensures CommandStopReason(r).Some? <==> r.finishReason.Some?
    ensures r.finishReason.Some? ==> ReasonFromName(CommandStopReason(r).value) == r.finishReason
  {
    if r.finishReason.Some? {
      ReasonNames(r.finishReason.value);
    }
  }

  /** Neither accessor reads `IsFinished` (nor any field but `Text` and
      `FinishReason`). */
  lemma CommandAccessorsIgnoreIsFinished(r: CommandStreamingResponse, f: Option<bool>, id: Option<string>,
                                         prompt: Option<string>, index: Option<int>)
    ensures var s := r.(isFinished := f, id := id, prompt := prompt, index := index);
      CommandText(s) == CommandText(r) && CommandStopReason(s) == CommandStopReason(r)
  {
  }

  /** `IsFinished` and `FinishReason` are independent fields: a chunk may be
      finished with no stop reason, or carry a stop reason while not
      finished. */
  lemma IsFinishedIndependentOfStopReason()
    ensures var r := CommandStreamingResponse(None, None, None, None, None, None, Some(true), None);
      CommandStopReason(r).None? && r.isFinished == Some(true)
    ensures var r := CommandStreamingResponse(Some(COMPLETE), None, None, None, None, None, Some(false), None);
      CommandStopReason(r) == Some("COMPLETE") && r.isFinished == Some(false)
  {
  }

  lemma EnumNamesRoundTrip(i: InputTypeEnum, t: TruncateEnum)
    ensures InputTypeFromName(InputTypeName(i)) == Some(i)
    ensures TruncateFromName(TruncateName(t)) == Some(t)
  {
  }

  /** The default input type is `search_document` and no truncation, which
      serializes to the single property `input_type: "search_document"`. */
  lemma DefaultEmbedConfigShape()
    ensures DefaultEmbedConfig.inputType == search_document && DefaultEmbedConfig.truncate.None?
    ensures SerializeEmbedConfig(DefaultEmbedConfig) == [("input_type", JString("search_document"))]
  {
  }

  /** `input_type` is always written with its name; `truncate` is written
      with its name when set and omitted when null; the object reads back
      as the same configuration. */
  lemma EmbedConfigShape(c: EmbedEmbeddingGenerationConfig)
    ensures var fs := SerializeEmbedConfig(c);
      && Lookup(fs, "input_type") == Some(JString(InputTypeName(c.inputType)))
      && (Lookup(fs, "truncate").None? <==> c.truncate.None?)
      && (c.truncate.Some? ==> Lookup(fs, "truncate") == Some(JString(TruncateName(c.truncate.value))))
      && DistinctKeys(fs)
    ensures DeserializeEmbedConfig(SerializeEmbedConfig(c)) == Some(c)
  {
    var props := EmbedConfigProperties(c);
    WriteLookup(props);
    assert props[0].0 == "input_type" && props[1].0 == "truncate";
    EnumNamesRoundTrip(c.inputType, if c.truncate.Some? then c.truncate.value else NONE);
  }
}
