/** Properties of the streaming flag rules, and of whole adapter runs. */
module StreamingProperties {
  import opened Wrappers
  import opened Streaming
  import Amazon
  import Cohere
  import Meta

  /** The flag after one more chunk is that chunk's rule applied to the flag
      before it. */
  lemma FlagAfterAppend(isStreaming: bool, cs: seq<Chunk>, c: Chunk)
    ensures FlagAfter(isStreaming, cs + [c]) == NextIsStreaming(FlagAfter(isStreaming, cs), c)
  {
    assert (cs + [c])[..|cs + [c]| - 1] == cs;
  }

  /** For Titan, Claude and Llama 2 a chunk clears the flag exactly when its
      family's `GetStopReason()` is non-null, and otherwise leaves it. */
  lemma ClearingRule(isStreaming: bool, c: Chunk)
    requires !c.CommandChunk?
    ensures NextIsStreaming(isStreaming, c) == (isStreaming && StopReason(c).None?)
  {
  }

  /** For Titan, Claude and Llama 2 the flag, starting true, is still set
      after a sequence of chunks exactly when none of them carries a stop
      reason. */
  lemma {:induction false} ClearingFlagIffNoStopReason(cs: seq<Chunk>)
    requires forall i :: 0 <= i < |cs| ==> !cs[i].CommandChunk?
    ensures FlagAfter(true, cs) <==> forall i :: 0 <= i < |cs| ==> StopReason(cs[i]).None?
  {
    if cs != [] {
      var init := cs[..|cs| - 1];
      ClearingFlagIffNoStopReason(init);
      ClearingRule(FlagAfter(true, init), cs[|cs| - 1]);
      assert forall i :: 0 <= i < |init| ==> init[i] == cs[i];
    }
  }

  /** For Titan, Claude and Llama 2 a cleared flag is never set back: it
      stays false whatever chunks follow. */
  lemma {:induction false} ClearedFlagStaysCleared(cs: seq<Chunk>)
    requires forall i :: 0 <= i < |cs| ==> !cs[i].CommandChunk?
    ensures !FlagAfter(false, cs)
  {
    if cs != [] {
      ClearedFlagStaysCleared(cs[..|cs| - 1]);
    }
  }

  /** For Titan, Claude and Llama 2, once the flag is cleared after a
      prefix of the chunks it is clear after every longer prefix. */
  lemma {:induction false} ClearingFlagMonotone(cs: seq<Chunk>, k: nat)
    requires forall i :: 0 <= i < |cs| ==> !cs[i].CommandChunk?
    requires k <= |cs|
    ensures !FlagAfter(true, cs[..k]) ==> !FlagAfter(true, cs)
  {
    if k < |cs| {
      var init := cs[..|cs| - 1];
      assert cs[..k] == init[..k];
      ClearingFlagMonotone(init, k);
      ClearingRule(FlagAfter(true, init), cs[|cs| - 1]);
    } else {
      assert cs[..k] == cs;
    }
  }

  /** For Command the flag after any non-empty sequence is the last chunk's
      `IsFinished`, absent counting as false, whatever came before. */
  lemma CommandFlagIsLastIsFinished(isStreaming: bool, cs: seq<Chunk>, r: Cohere.CommandStreamingResponse)
    ensures FlagAfter(isStreaming, cs + [CommandChunk(r)]) == r.isFinished.GetOr(false)
  {
    FlagAfterAppend(isStreaming, cs, CommandChunk(r));
  }

  /** The Command rule is the inverse of the others: a chunk marked finished
      sets the flag, an unfinished one (or one without the field) clears it,
      and the chunk's stop reason plays no part. */
  lemma CommandRuleInverted(r: Cohere.CommandStreamingResponse, t: Amazon.TitanTextStreamingResponse)
    requires r.isFinished == Some(true) && r.finishReason == Some(Cohere.COMPLETE)
    requires t.completionReason == Some("FINISH")
    ensures StopReason(CommandChunk(r)).Some? && NextIsStreaming(false, CommandChunk(r))
    ensures StopReason(TitanChunk(t)).Some? && !NextIsStreaming(true, TitanChunk(t))
    ensures !NextIsStreaming(true, CommandChunk(r.(isFinished := None)))
    ensures !NextIsStreaming(true, CommandChunk(r.(isFinished := Some(false), finishReason := None)))
  {
  }

  // ---------------------------------------------------------------------
  // Whole runs of an adapter

  /** Titan: a first chunk is yielded, and the consumer then ends exactly
      when the chunk's accessor reports a stop reason; otherwise it waits
      for the next frame. */
  method TitanEndsIffStopReason(t: Amazon.TitanTextStreamingResponse) returns (out: seq<Chunk>, ended: bool)
    ensures out == [TitanChunk(t)]
    ensures ended <==> Amazon.StreamingStopReason(t).Some?
  {
    var adapter := new StreamingAdapter(TitanText);
    var written := adapter.OnChunk(Some(TitanChunk(t)));
    out, ended := adapter.Drain();
  }

  /** Llama 2: after a chunk with a stop reason the consumer yields what is
      buffered, in order, and ends. */
  method Llama2EndsAfterStopReason(first: Meta.LlamaResponse, last: Meta.LlamaResponse) returns (out: seq<Chunk>, ended: bool)
    requires last.stopReason.Some?
    ensures out == [Llama2Chunk(first), Llama2Chunk(last)] && ended
  {
    var adapter := new StreamingAdapter(Llama2);
    var w1 := adapter.OnChunk(Some(Llama2Chunk(first)));
    var w2 := adapter.OnChunk(Some(Llama2Chunk(last)));
    out, ended := adapter.Drain();
  }

  /** Llama 2: the same for a first Llama 2 chunk, whose accessor reads
      `StopReason`; a chunk with every field absent is not terminal. */
  method Llama2EndsIffStopReason(r: Meta.LlamaResponse) returns (out: seq<Chunk>, ended: bool)
    ensures out == [Llama2Chunk(r)]
    ensures ended <==> Meta.LlamaStopReason(r).Some?
    ensures r == Meta.LlamaResponse(None, None, None, None) ==> !ended
  {
    var adapter := new StreamingAdapter(Llama2);
    var written := adapter.OnChunk(Some(Llama2Chunk(r)));
    out, ended := adapter.Drain();
  }

  /** Command as written: a first chunk not marked finished ends the stream
      once it has been yielded, even though the model goes on generating.
      The end is final: the later chunk marked finished reaches no callback,
      and the consumer yields nothing more. */
  method CommandEndsAfterFirstUnfinishedChunk(r: Cohere.CommandStreamingResponse, later: Cohere.CommandStreamingResponse)
    returns (out: seq<Chunk>, ended: bool, afterwards: seq<Chunk>, endedAgain: bool)
    requires r.isFinished != Some(true)
    ensures out == [CommandChunk(r)] && ended
    ensures afterwards == [] && endedAgain
  {
    var adapter := new StreamingAdapter(CommandText);
    var written := adapter.OnChunk(Some(CommandChunk(r)));
    out, ended := adapter.Drain();
    written := adapter.OnChunk(Some(CommandChunk(later)));
    afterwards, endedAgain := adapter.Drain();
  }

  /** Once the loop has exited, however it got there, every later turn
      reports the end and yields nothing, whatever frames arrive in
      between. */
  method EndedIsFinal(adapter: StreamingAdapter, later: seq<Chunk>) returns (steps: seq<Step>)
    requires adapter.Valid() && adapter.detached
    requires forall i :: 0 <= i < |later| ==> FamilyOf(later[i]) == adapter.family
    modifies adapter
    ensures |steps| == |later|
    ensures forall i :: 0 <= i < |steps| ==> steps[i] == Ended
    ensures adapter.Valid() && adapter.detached
    ensures adapter.buffer == old(adapter.buffer) && adapter.yielded == old(adapter.yielded)
    ensures adapter.received == old(adapter.received) && adapter.seen == old(adapter.seen)
  {
    steps := [];
    var k := 0;
    while k < |later|
      invariant 0 <= k <= |later| && |steps| == k
      invariant adapter.Valid() && adapter.detached
      invariant adapter.buffer == old(adapter.buffer) && adapter.yielded == old(adapter.yielded)
      invariant adapter.received == old(adapter.received) && adapter.seen == old(adapter.seen)
      invariant forall i :: 0 <= i < k ==> steps[i] == Ended
    {
      var written := adapter.OnChunk(Some(later[k]));
      var step := adapter.Next();
      steps := steps + [step];
      k := k + 1;
    }
  }

  /** Command as written: after the chunk marked finished the consumer does
      not end but waits for a frame that never comes. */
  method CommandWaitsAfterFinishedChunk(r: Cohere.CommandStreamingResponse) returns (out: seq<Chunk>, ended: bool)
    requires r.isFinished == Some(true)
    ensures out == [CommandChunk(r)] && !ended
  {
    var adapter := new StreamingAdapter(CommandText);
    var written := adapter.OnChunk(Some(CommandChunk(r)));
    out, ended := adapter.Drain();
  }

  /** A null frame makes the callback fail and leaves nothing to yield; a
      cancelled consumer ends without yielding what is buffered. */
  method NullFrameAndCancellation(c: Chunk) returns (first: Result<(), StreamError>, out: seq<Chunk>, ended: bool)
    ensures first == Failure(NullReference)
    ensures out == [] && ended
  {
    var adapter := new StreamingAdapter(FamilyOf(c));
    first := adapter.OnChunk(None);
    var written := adapter.OnChunk(Some(c));
    adapter.Cancel();
    out, ended := adapter.Drain();
  }
}
