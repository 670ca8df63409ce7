/** The text that leaves the server: framed JSON payloads and a closing marker
    (crates/copenai-openai/src/sse.rs, crates/copenai-openai/src/responses/sse.rs). */
module Wire {
  import opened Wrappers
  import opened SseFrames
  import opened ChatStream
  import opened Items

  const DONE := "[DONE]"

  /** The JSON library: compact objects, written on one line and read back. */
  datatype Codec<!T> = Codec(render: T -> string, parse: string -> Option<T>)

  ghost predicate Lossless<T(!new)>(codec: Codec<T>) {
    forall x: T :: OneLine(codec.render(x)) && codec.render(x) != DONE && codec.parse(codec.render(x)) == Some(x)
  }

  lemma {:induction false} EncodeFramesSnoc(payloads: seq<string>, last: string)
    ensures EncodeFrames(payloads + [last]) == EncodeFrames(payloads) + EncodeFrame(last)
  {
    if payloads == [] {
      assert [last][1..] == [];
      assert EncodeFrames([last]) == EncodeFrame(last) + "";
      assert "" + EncodeFrame(last) == EncodeFrame(last) + "";
    } else {
      hide EncodeFrame;
      assert (payloads + [last])[1..] == payloads[1..] + [last];
      EncodeFramesSnoc(payloads[1..], last);
    }
  }

  // ---- Chat chunks ----

  function ChatPayload(codec: Codec<Frame>, frame: Frame): string {
    if frame.DoneMarker? then DONE else codec.render(frame)
  }

  function ChatPayloads(codec: Codec<Frame>, frames: seq<Frame>): seq<string> {
    seq(|frames|, k requires 0 <= k < |frames| => ChatPayload(codec, frames[k]))
  }

  function ChatFrame(codec: Codec<Frame>, payload: string): Option<Frame> {
    if payload == DONE then Some(DoneMarker) else codec.parse(payload)
  }

  /** A client that reads the event stream and parses each payload recovers exactly
      the frames, so all that is proved of frames holds of what it sees. */
  lemma ChatTextReadsBack(codec: Codec<Frame>, frames: seq<Frame>)
    requires Lossless(codec)
    ensures var payloads := Read(EncodeFrames(ChatPayloads(codec, frames)), "", "");
      |payloads| == |frames| && forall k :: 0 <= k < |frames| ==> ChatFrame(codec, payloads[k]) == Some(frames[k])
  {
    var payloads := ChatPayloads(codec, frames);
    forall k | 0 <= k < |payloads| ensures OneLine(payloads[k]) {}
    FramesReadBack(payloads);
  }

  // ---- Responses events ----

  const U64_RANGE := 0x1_0000_0000_0000_0000

  datatype Envelope = Envelope(eventType: string, sequenceNumber: nat, event: ResponsesStreamEvent)

  function EventType(event: ResponsesStreamEvent): string {
    match event
    case Created(_) => "response.created"
    case InProgress(_) => "response.in_progress"
    case OutputItemAdded(_, _, _) => "response.output_item.added"
    case ContentPartAdded(_, _, _, _) => "response.content_part.added"
    case OutputTextDelta(_, _, _, _, _) => "response.output_text.delta"
    case ReasoningTextDelta(_, _, _) => "response.reasoning_text.delta"
    case FunctionCallArgumentsDelta(_, _, _, _) => "response.function_call_arguments.delta"
    case FunctionCallArgumentsDone(_, _, _) => "response.function_call_arguments.done"
    case OutputItemDone(_, _, _) => "response.output_item.done"
    case Completed(_) => "response.completed"
    case FailedResponse(_, _) => "response.failed"
  }

  /** The type names the kind of the event, and no other kind. */
  predicate Types(event: ResponsesStreamEvent, name: string) {
    && (event.Created? <==> name == "response.created")
    && (event.InProgress? <==> name == "response.in_progress")
    && (event.OutputItemAdded? <==> name == "response.output_item.added")
    && (event.ContentPartAdded? <==> name == "response.content_part.added")
    && (event.OutputTextDelta? <==> name == "response.output_text.delta")
    && (event.ReasoningTextDelta? <==> name == "response.reasoning_text.delta")
    && (event.FunctionCallArgumentsDelta? <==> name == "response.function_call_arguments.delta")
    && (event.FunctionCallArgumentsDone? <==> name == "response.function_call_arguments.done")
    && (event.OutputItemDone? <==> name == "response.output_item.done")
    && (event.Completed? <==> name == "response.completed")
    && (event.FailedResponse? <==> name == "response.failed")
  }

  lemma TypesApart(event: ResponsesStreamEvent)
    ensures Types(event, EventType(event))
  {
  }

  /** The counter is an atomic 64-bit word. */
  function Numbered(events: seq<ResponsesStreamEvent>, k: nat): Envelope
    requires k < |events|
  {
    Envelope(EventType(events[k]), k % U64_RANGE, events[k])
  }

  function NumberedPayloads(codec: Codec<Envelope>, events: seq<ResponsesStreamEvent>): seq<string> {
    seq(|events|, k requires 0 <= k < |events| => codec.render(Numbered(events, k)))
  }

  /** The client reads every event once, in order, under consecutive numbers from
      zero, and then the marker. */
  method ResponsesSseStream(codec: Codec<Envelope>, events: seq<ResponsesStreamEvent>) returns (text: string)
    requires Lossless(codec)
    ensures var payloads := Read(text, "", "");
      && |payloads| == |events| + 1 && payloads[|events|] == "[DONE]"
      && forall k :: 0 <= k < |events| ==>
           && codec.parse(payloads[k]) == Some(Numbered(events, k))
           && var envelope := Numbered(events, k);
              envelope.event == events[k] && envelope.sequenceNumber == k % U64_RANGE
              && Types(events[k], envelope.eventType)
  {
    hide Read, EncodeFrames, EncodeFrame, NumberedPayloads;
    text := "";
    var next := 0;
    NothingSent(codec, events);
    for i := 0 to |events|
      invariant next == i % U64_RANGE
      invariant text == EncodeFrames(NumberedPayloads(codec, events)[..i])
    {
      OneEventMore(codec, events, i);
      var n := next;
      next := (next + 1) % U64_RANGE;
      var data := codec.render(Envelope(EventType(events[i]), n, events[i]));
      text := text + EncodeFrame(data);
    }
    text := text + EncodeFrame(DONE);
    NumberedTextReadsBack(codec, events);
    forall k | 0 <= k < |events| ensures Types(events[k], Numbered(events, k).eventType) {
      TypesApart(events[k]);
    }
    hide Types, EventType;
  }

  lemma NothingSent(codec: Codec<Envelope>, events: seq<ResponsesStreamEvent>)
    ensures |NumberedPayloads(codec, events)| == |events|
    ensures EncodeFrames(NumberedPayloads(codec, events)[..0]) == ""
    ensures forall k :: 0 <= k < |events| ==> NumberedPayloads(codec, events)[k] == codec.render(Numbered(events, k))
  {
  }

  lemma OneEventMore(codec: Codec<Envelope>, events: seq<ResponsesStreamEvent>, i: nat)
    requires i < |events|
    ensures var all := NumberedPayloads(codec, events);
      EncodeFrames(all[..i + 1])
      == EncodeFrames(all[..i]) + EncodeFrame(codec.render(Envelope(EventType(events[i]), i % U64_RANGE, events[i])))
    ensures (i % U64_RANGE + 1) % U64_RANGE == (i + 1) % U64_RANGE
  {
    hide EncodeFrames, EncodeFrame, EventType;
    var all := NumberedPayloads(codec, events);
    assert Numbered(events, i) == Envelope(EventType(events[i]), i % U64_RANGE, events[i]);
    assert all[i] == codec.render(Numbered(events, i));
    assert all[..i + 1] == all[..i] + [all[i]];
    EncodeFramesSnoc(all[..i], all[i]);
  }

  lemma NumberedTextReadsBack(codec: Codec<Envelope>, events: seq<ResponsesStreamEvent>)
    requires Lossless(codec)
    ensures var all := NumberedPayloads(codec, events);
      Read(EncodeFrames(all[..|events|]) + EncodeFrame(DONE), "", "") == all + [DONE]
  {
    var all := NumberedPayloads(codec, events);
    assert all[..|events|] == all;
    EncodeFramesSnoc(all, DONE);
    forall k | 0 <= k < |all + [DONE]| ensures OneLine((all + [DONE])[k]) {
      if k < |all| {
        assert all[k] == codec.render(Numbered(events, k));
      } else {
        assert (all + [DONE])[k] == DONE;
        assert OneLine(DONE);
      }
    }
    FramesReadBack(all + [DONE]);
  }
}
