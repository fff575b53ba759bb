/** The four `*WithResponseStreamAsync` adapters (Titan text, Claude,
    Command and Llama 2). Each keeps an unbounded FIFO channel of chunks and
    a local `isStreaming` flag, initially true. The event-stream callback
    deserializes a frame, updates the flag by the family's rule and enqueues
    the chunk; the consumer yields from the channel while the token is not
    cancelled and either the flag is set or the channel holds a chunk. Once
    that condition fails the handler is unsubscribed and the enumeration is
    over for good: later frames reach no callback and nothing more is
    yielded. The
    four copies differ only in their chunk type and flag rule, so one class
    models them, and its chunk says which family's rule applies. */
module Streaming {
  import opened Wrappers
  import Amazon
  import Anthropic
  import Cohere
  import Meta

  datatype Family = TitanText | Claude | CommandText | Llama2

  /** A deserialized frame of one of the four streaming families. */
  datatype Chunk =
    | TitanChunk(titan: Amazon.TitanTextStreamingResponse)
    | ClaudeChunk(claude: Anthropic.ClaudeResponse)
    | CommandChunk(command: Cohere.CommandStreamingResponse)
    | Llama2Chunk(llama: Meta.LlamaResponse)

  function FamilyOf(c: Chunk): Family {
    match c
    case TitanChunk(_) => TitanText
    case ClaudeChunk(_) => Claude
    case CommandChunk(_) => CommandText
    case Llama2Chunk(_) => Llama2
  }

  /** The callback's update of `isStreaming` for one chunk. Titan, Claude and
      Llama 2 clear the flag on a non-null stop reason and otherwise leave
      it; Command overwrites it with the chunk's `IsFinished`, absent
      counting as false. */
  function NextIsStreaming(isStreaming: bool, c: Chunk): bool {
    match c
    case TitanChunk(r) => if r.completionReason.Some? then false else isStreaming
    case ClaudeChunk(r) => if r.stopReason.Some? then false else isStreaming
    case CommandChunk(r) => r.isFinished.GetOr(false)
    case Llama2Chunk(r) => if Meta.LlamaStopReason(r).Some? then false else isStreaming
  }

  /** The flag after the callback has processed `cs` in order. */
  function FlagAfter(isStreaming: bool, cs: seq<Chunk>): bool {
    if cs == [] then isStreaming
    else NextIsStreaming(FlagAfter(isStreaming, cs[..|cs| - 1]), cs[|cs| - 1])
  }

  /** The stop reason the family's accessor reports for a chunk. */
  function StopReason(c: Chunk): Option<string> {
    match c
    case TitanChunk(r) => Amazon.StreamingStopReason(r)
    case ClaudeChunk(r) => Anthropic.ClaudeResponseStopReason(r)
    case CommandChunk(r) => Cohere.CommandStopReason(r)
    case Llama2Chunk(r) => Meta.LlamaStopReason(r)
  }

  datatype StreamError =
    | NullReference   // the frame deserialized to null
    | Cancelled       // WriteAsync on a cancelled token

  /** One turn of the consumer loop: a chunk is yielded, the loop has ended,
      or it waits in `ReadAsync` for the callback to enqueue a chunk. */
  datatype Step = Yield(chunk: Chunk) | Ended | Waiting

  class StreamingAdapter {
    const family: Family
    /** The channel's contents, oldest first. */
    var buffer: seq<Chunk>
    var isStreaming: bool
    /** `cancellationToken.IsCancellationRequested`. */
    var cancelled: bool
    /** The loop has exited: the handler is unsubscribed from `ChunkReceived`
        and the iterator has returned. */
    var detached: bool
    /** Every non-null chunk the callback has processed. */
    ghost var seen: seq<Chunk>
    /** Every chunk the callback has written to the channel. */
    ghost var received: seq<Chunk>
    /** Every chunk the consumer has yielded. */
    ghost var yielded: seq<Chunk>

    ghost predicate Valid()
      reads this
    {
      && received == yielded + buffer
      && isStreaming == FlagAfter(true, seen)
      && (!cancelled ==> seen == received)
      && (forall i :: 0 <= i < |seen| ==> FamilyOf(seen[i]) == family)
    }

    /** The loop condition, as written. */
    predicate Continues()
      reads this
    {
      (!cancelled && isStreaming) || (!cancelled && |buffer| > 0)
    }

    constructor (family: Family)
      ensures Valid()
      ensures this.family == family && buffer == [] && isStreaming && !cancelled && !detached
      ensures seen == [] && received == [] && yielded == []
    {
      this.family := family;
      buffer := [];
      isStreaming := true;
      cancelled := false;
      detached := false;
      seen := [];
      received := [];
      yielded := [];
    }

    /** The event-stream callback for one frame, already deserialized
        (`None` when the deserializer returned null). Once the loop has
        exited the handler is unsubscribed, so the frame reaches no callback
        and nothing happens. */
    method OnChunk(frame: Option<Chunk>) returns (r: Result<(), StreamError>)
      requires Valid()
      requires frame.Some? ==> FamilyOf(frame.value) == family
      modifies this
      ensures Valid()
      ensures old(detached) ==> r.Success? && unchanged(this)
      ensures !old(detached) && frame.None? ==> r == Failure(NullReference) && unchanged(this)
      ensures !old(detached) && frame.Some? ==>
        && isStreaming == NextIsStreaming(old(isStreaming), frame.value)
        && seen == old(seen) + [frame.value]
        && cancelled == old(cancelled) && !detached && yielded == old(yielded)
        && (!old(cancelled) ==> r.Success? && buffer == old(buffer) + [frame.value] && received == old(received) + [frame.value])
        && (old(cancelled) ==> r == Failure(Cancelled) && buffer == old(buffer) && received == old(received))
    {
      if detached {
        return Success(());
      }
      if frame.None? {
        return Failure(NullReference);
      }
      var chunk := frame.value;
      isStreaming := NextIsStreaming(isStreaming, chunk);
      assert (seen + [chunk])[..|seen + [chunk]| - 1] == seen;
      seen := seen + [chunk];
      if cancelled {
        return Failure(Cancelled);
      }
      buffer := buffer + [chunk];
      received := received + [chunk];
      r := Success(());
    }

    /** The caller cancels the token. */
    method Cancel()
      requires Valid()
      modifies this
      ensures Valid()
      ensures cancelled
      ensures buffer == old(buffer) && isStreaming == old(isStreaming) && detached == old(detached)
      ensures seen == old(seen) && received == old(received) && yielded == old(yielded)
    {
      cancelled := true;
    }

    /** One turn of the consumer loop: test the condition, then take the
        oldest chunk, or wait when the channel is empty. When the condition
        fails the loop exits and unsubscribes its handler, and an exited loop
        stays ended. */
    method Next() returns (step: Step)
      requires Valid()
      modifies this
      ensures Valid()
      ensures old(detached) ==> step == Ended
      ensures step == Ended <==> old(detached) || !old(Continues())
      ensures detached <==> step == Ended
      ensures step.Yield? <==> !old(detached) && old(Continues()) && old(buffer) != []
      ensures step.Yield? ==>
        && step.chunk == old(buffer)[0]
        && buffer == old(buffer)[1..]
        && yielded == old(yielded) + [step.chunk]
      ensures !step.Yield? ==> buffer == old(buffer) && yielded == old(yielded)
      ensures isStreaming == old(isStreaming) && cancelled == old(cancelled)
      ensures seen == old(seen) && received == old(received)
    {
      if detached || !Continues() {
        detached := true;
        return Ended;
      }
      if buffer == [] {
        return Waiting;
      }
      var chunk := buffer[0];
      yielded := yielded + [chunk];
      buffer := buffer[1..];
      step := Yield(chunk);
    }

    /** The consumer running while no further frame arrives: it yields every
        buffered chunk in order and then either ends or waits on the empty
        channel; once cancelled, or once the loop has exited, it yields
        nothing. */
    method Drain() returns (out: seq<Chunk>, ended: bool)
      requires Valid()
      modifies this
      ensures Valid()
      ensures out == if old(detached) || old(cancelled) then [] else old(buffer)
      ensures ended <==> old(detached) || old(cancelled) || !old(isStreaming)
      ensures detached == ended
      ensures !ended ==> buffer == []
      ensures yielded == old(yielded) + out
      ensures isStreaming == old(isStreaming) && cancelled == old(cancelled)
      ensures seen == old(seen) && received == old(received)
    {
      out := [];
      ended := false;
      var done := false;
      while !done
        invariant Valid()
        invariant isStreaming == old(isStreaming) && cancelled == old(cancelled)
        invariant seen == old(seen) && received == old(received)
        invariant yielded == old(yielded) + out
        invariant !old(detached) && !cancelled ==> out + buffer == old(buffer)
        invariant old(detached) || cancelled ==> out == [] && buffer == old(buffer)
        invariant !done ==> !ended && detached == old(detached)
        invariant done ==> detached == ended
        invariant done ==> (ended <==> old(detached) || cancelled || !isStreaming)
        invariant done && !ended ==> buffer == []
        invariant done && !old(detached) && !cancelled ==> buffer == []
        decreases |buffer|, if done then 0 else 1
      {
        ghost var before := buffer;
        ghost var wasContinuing := Continues();
        var step := Next();
        match step
        case Yield(c) =>
          out := out + [c];
        case Ended =>
          ended := true;
          done := true;
        case Waiting =>
          assert wasContinuing && before == [];
          done := true;
      }
    }
  }
}
