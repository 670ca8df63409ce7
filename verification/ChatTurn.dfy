/** A chat turn with tools, and its two answers
    (crates/copenai-server/src/tools/orchestrate.rs,
    crates/copenai-server/src/routes.rs). */
module ChatTurn {
  import opened Wrappers
  import opened Events
  import opened Json
  import opened ChatStream
  import opened TurnSpec
  import Drain
  import Worker
  import TC = ToolCalls
  import TL = ToolLoop

  datatype ChatTurnOutcome = ChatTurnOutcome(text: string, toolCalls: seq<TC.FunctionCall>, usage: UsageSnapshot,
                                             finishReason: string, incompleteReason: Option<IncompleteReason>)

  /** What the turn comes to. req.tools are the tools left after parsing the request. */
  function ChatOutcome(req: TurnRequest, env: Environment): (r: Result<ChatTurnOutcome, string>)
    ensures r.Success? && r.value.toolCalls != [] ==> r.value.text == "" && r.value.finishReason == "tool_calls"
  {
    var c :- CollectPrompt(env.first);
    var finish := c.finish.AsOpenAiString();
    if req.tools != [] && req.mode.Client? then
      var calls :- TC.AcceptedCalls(env.loop.lib, c.text, req.tools, req.choice, env.clientCallId);
      if calls != [] then
        Success(ChatTurnOutcome("", calls, c.usage, "tool_calls", LengthReason(c.finish)))
      else
        Success(ChatTurnOutcome(c.text, [], c.usage, finish, LengthReason(c.finish)))
    else if req.tools != [] then
      var o :- TL.RunFrom(env.loop, env.config, req.tools, req.choice, 0, c.text);
      Success(ChatTurnOutcome(o.text, [], c.usage, finish,
                              if o.hitLimit then Some(MaxToolSteps) else LengthReason(c.finish)))
    else
      Success(ChatTurnOutcome(c.text, [], c.usage, finish, LengthReason(c.finish)))
  }

  method ExecuteChatTurn(req: TurnRequest, env: Environment) returns (r: Result<ChatTurnOutcome, string>)
    ensures r == ChatOutcome(req, env)
  {
    hide TC.AcceptedCalls, TL.RunFrom, Collect;
    if env.first.Failure? {
      return Failure(env.first.error);
    }
    var drained := Drain.DrainSync(env.first.value, false, false);
    if drained.Failure? {
      return Failure(drained.error);
    }
    var text := drained.value.text;
    var toolCalls: seq<TC.FunctionCall> := [];
    var finishReason := drained.value.finish.AsOpenAiString();
    var incompleteReason := None;
    if req.tools != [] {
      if req.mode.Client? {
        var calls := TC.ParseCalls(env.loop.lib, text, req.tools, req.choice, env.clientCallId);
        if calls.Failure? {
          return Failure(calls.error);
        }
        if calls.value != [] {
          toolCalls := calls.value;
          text := "";
          finishReason := "tool_calls";
        }
      } else {
        var ran, posted := TL.RunServerLoop(env.loop, env.config, text, req.tools, req.choice, req.parallel);
        if ran.Failure? {
          return Failure(ran.error);
        }
        text := ran.value.0;
        if ran.value.2 {
          incompleteReason := Some(MaxToolSteps);
        }
      }
    }
    if drained.value.finish.Length? && incompleteReason.None? {
      incompleteReason := Some(MaxOutputTokens);
    }
    r := Success(ChatTurnOutcome(text, toolCalls, drained.value.usage, finishReason, incompleteReason));
  }

  function Decimal(n: nat): (s: string)
    ensures s != ""
  {
    if n < 10 then ["0123456789"[n]] else Decimal(n / 10) + ["0123456789"[n % 10]]
  }

  /** The number a string of decimal digits stands for. */
  function NumberOf(digits: string): int {
    if digits == "" then 0 else
      10 * NumberOf(digits[..|digits| - 1]) + digits[|digits| - 1] as int - '0' as int
  }

  lemma {:induction false} DecimalReadsBack(n: nat)
    ensures NumberOf(Decimal(n)) == n
  {
    if n >= 10 {
      DecimalReadsBack(n / 10);
      assert Decimal(n)[..|Decimal(n)| - 1] == Decimal(n / 10);
    } else {
      assert Decimal(n)[..0] == "";
    }
  }

  /** Every call keeps its name and its arguments, as text. One without an id is
      named by its position. */
  ghost predicate Passed(lib: JsonLibrary, calls: seq<TC.FunctionCall>, toolCalls: seq<ToolCall>) {
    && |toolCalls| == |calls|
    && forall k :: 0 <= k < |calls| ==>
         && toolCalls[k].name == calls[k].name
         && toolCalls[k].arguments == lib.render(calls[k].arguments)
         && toolCalls[k].id == if calls[k].callId != "" then calls[k].callId else "call_" + Decimal(k)
  }

  // ---- What a chat answer says, read off the stream and the calls in it ----

  predicate HasCalls(req: TurnRequest, env: Environment) {
    && req.tools != [] && req.mode == Client && CollectPrompt(env.first).Success?
    && var calls := FoundCalls(req, env);
       calls.Success? && calls.value != []
  }

  function FoundCalls(req: TurnRequest, env: Environment): Result<seq<TC.FunctionCall>, string>
    requires CollectPrompt(env.first).Success?
  {
    TC.AcceptedCalls(env.loop.lib, CollectPrompt(env.first).value.text, req.tools, req.choice, env.clientCallId)
  }

  function ServerRun(req: TurnRequest, env: Environment): Result<TL.LoopOutcome, string>
    requires CollectPrompt(env.first).Success?
  {
    TL.RunFrom(env.loop, env.config, req.tools, req.choice, 0, CollectPrompt(env.first).value.text)
  }

  predicate Fails(req: TurnRequest, env: Environment) {
    || CollectPrompt(env.first).Failure?
    || (req.tools != [] && req.mode == Client && FoundCalls(req, env).Failure?)
    || (req.tools != [] && req.mode == Server && ServerRun(req, env).Failure?)
  }

  /** The reason the agent's stream gave for its end; a stream without an end stops. */
  predicate StreamEndsIn(stream: Result<seq<PromptStreamEvent>, string>, reason: string) {
    var events := EventsOf(stream);
    var n := |Live(events)|;
    match reason
    case "length" => n < |events| && events[n].Done? && events[n].finishReason == Length
    case "content_filter" => n < |events| && events[n].Done? && events[n].finishReason == ContentFilter
    case "stop" => n == |events| || (events[n].Done? && events[n].finishReason == Stop)
    case _ => false
  }

  /** Text, calls and finish reason of the answer. */
  ghost predicate Answers(req: TurnRequest, env: Environment, content: string, toolCalls: seq<ToolCall>,
                          finish: string)
    requires !Fails(req, env)
  {
    if HasCalls(req, env) then
      content == "" && finish == "tool_calls" && Passed(env.loop.lib, FoundCalls(req, env).value, toolCalls)
    else
      && toolCalls == [] && StreamEndsIn(env.first, finish)
      && content == if req.tools != [] && req.mode == Server then ServerRun(req, env).value.text
                    else CollectPrompt(env.first).value.text
  }

  lemma OutcomeAnswers(req: TurnRequest, env: Environment)
    ensures ChatOutcome(req, env).Failure? <==> Fails(req, env)
    ensures ChatOutcome(req, env).Success? ==>
      var o := ChatOutcome(req, env).value;
      && Answers(req, env, o.text, CallsToChatToolCalls(env.loop.lib, o.toolCalls), o.finishReason)
      && o.usage == CollectPrompt(env.first).value.usage
      && (o.toolCalls != [] <==> HasCalls(req, env))
  {
    hide TC.AcceptedCalls, TL.RunFrom;
    assert req.mode == Client || req.mode == Server;
  }

  function CallsToChatToolCalls(lib: JsonLibrary, calls: seq<TC.FunctionCall>): (r: seq<ToolCall>)
    ensures Passed(lib, calls, r)
  {
    seq(|calls|, i requires 0 <= i < |calls| =>
      ToolCall(if calls[i].callId == "" then "call_" + Decimal(i) else calls[i].callId,
               calls[i].name, lib.render(calls[i].arguments)))
  }

  function ToolCompletion(lib: JsonLibrary, o: ChatTurnOutcome): Completion {
    CompletionResponseWithTools(o.text, o.finishReason, o.usage,
      if o.toolCalls == [] then None else Some(CallsToChatToolCalls(lib, o.toolCalls)))
  }

  /** The unstreamed answer of a request with tools. */
  method AnswerWithTools(req: TurnRequest, env: Environment) returns (r: Result<Completion, string>)
    ensures var o := ChatOutcome(req, env);
      && (o.Failure? ==> r == Failure(o.error))
      && (o.Success? ==> r == Success(ToolCompletion(env.loop.lib, o.value)))
    ensures r.Failure? <==> Fails(req, env)
    ensures r.Success? ==>
      && Answers(req, env, r.value.content.GetOr(""), r.value.toolCalls.GetOr([]), r.value.finishReason)
      && r.value.content != Some("") && r.value.toolCalls != Some([])
      && r.value.usage == CollectPrompt(env.first).value.usage
  {
    OutcomeAnswers(req, env);
    hide Fails, Answers, HasCalls, ChatOutcome, Collect;
    var outcome := ExecuteChatTurn(req, env);
    if outcome.Failure? {
      return Failure(outcome.error);
    }
    var toolCalls := if outcome.value.toolCalls == [] then None
                     else Some(CallsToChatToolCalls(env.loop.lib, outcome.value.toolCalls));
    r := Success(CompletionResponseWithTools(outcome.value.text, outcome.value.finishReason, outcome.value.usage,
                                             toolCalls));
  }

  /** The streamed answer of a request with tools: it fails with the same error, or
      its chunks reassemble to exactly the unstreamed completion. */
  method StreamWithTools(req: TurnRequest, env: Environment, id: string, model: string)
    returns (r: Result<seq<Frame>, string>)
    ensures var o := ChatOutcome(req, env);
      && (o.Failure? ==> r == Failure(o.error))
      && (o.Success? ==>
            && r.Success?
            && StreamShape(id, model, r.value)
            && Reassemble(r.value) == CompletionView(ToolCompletion(env.loop.lib, o.value)))
    ensures r.Failure? <==> Fails(req, env)
    ensures r.Success? ==>
      var view := Reassemble(r.value);
      && view.role == Some("assistant") && view.error.None? && view.finish.Some?
      && Answers(req, env, view.content, view.toolCalls, view.finish.value)
  {
    OutcomeAnswers(req, env);
    hide Fails, Answers, HasCalls, Collect;
    var outcome := ExecuteChatTurn(req, env);
    if outcome.Failure? {
      return Failure(outcome.error);
    }
    var o := outcome.value;
    var toolCalls := CallsToChatToolCalls(env.loop.lib, o.toolCalls);
    ToolChatAgrees(o.text, o.usage, o.finishReason, toolCalls);
    var frames := LiveSseStream(id, model, ToolEvents(o.text, o.usage, o.finishReason, toolCalls));
    r := Success(frames);
  }

  lemma {:induction false} PlainHeard(events: seq<PromptStreamEvent>)
    ensures var view := Heard(MapStreamEvents(events), "");
      && view.role == Some("assistant") && view.toolCalls == []
      && view.content == Concat(Deltas(Live(events)))
      && (view.error.None? ==> view.finish.Some? && StreamEndsIn(Success(events), view.finish.value))
  {
    HeardPlain(events, "");
    assert "" + TextOf(Live(events)) == TextOf(Live(events));
    hide Heard, MapStreamEvents, Concat, Deltas, Live;
  }

  /** The streamed plain answer. Its frames always have the right shape. They say
      what the unstreamed answer says exactly when a final Done repeats the streamed
      text, which every worker stream does. */
  method StreamPlain(events: seq<PromptStreamEvent>, id: string, model: string) returns (frames: seq<Frame>)
    ensures StreamShape(id, model, frames)
    ensures var whole := Collect(events);
      && (whole.Failure? <==> Reassemble(frames).error.Some?)
      && (whole.Failure? ==> Reassemble(frames).error == Some(whole.error))
      && (whole.Success? ==>
            (Reassemble(frames) == CompletionView(PlainCompletion(whole.value))
             <==> |Live(events)| < |events| ==> events[|Live(events)|].fullText == TextOf(Live(events))))
      && (whole.Success? && Worker.WorkerStream(events) ==>
            Reassemble(frames) == CompletionView(PlainCompletion(whole.value)))
    ensures var view := Reassemble(frames);
      && view.role == Some("assistant") && view.toolCalls == []
      && view.content == Concat(Deltas(Live(events)))
      && (view.error.None? ==> view.finish.Some? && StreamEndsIn(Success(events), view.finish.value))
  {
    PlainHeard(events);
    PlainChatAgrees(events);
    hide Heard, MapStreamEvents, Concat, Deltas, Live, StreamShape, Reassemble, StreamEndsIn, Collect;
    assert Worker.WorkerStream(events) && Collect(events).Success? ==>
        |Live(events)| < |events| ==> events[|Live(events)|].fullText == TextOf(Live(events)) by {
      if Worker.WorkerStream(events) {
        Worker.WorkerStreamCollects(events);
      }
    }
    frames := LiveSseStream(id, model, MapStreamEvents(events));
  }

  function PlainCompletion(c: Collected): Completion {
    CompletionResponse(c.text, c.finish.AsOpenAiString(), c.usage)
  }
}
