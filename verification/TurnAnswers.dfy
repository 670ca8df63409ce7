/** What the response of a turn says, read off the request, the agent's streams and
    the calls found in them (crates/copenai-server/src/tools/orchestrate.rs). */
module TurnAnswers {
  import opened Wrappers
  import opened Events
  import opened Json
  import opened Items
  import opened Drain
  import opened Emitted
  import opened TurnSpec
  import opened TurnLaws
  import TC = ToolCalls
  import TL = ToolLoop

  // ---- How a turn goes ----

  /** The stream ended because the answer got too long. */
  predicate CutByLength(stream: Result<seq<PromptStreamEvent>, string>) {
    var events := EventsOf(stream);
    var n := |Live(events)|;
    n < |events| && events[n].Done? && events[n].finishReason.Length?
  }

  predicate HasTools(req: TurnRequest) {
    TC.FilterTools(req.tools, req.choice) != []
  }

  function LoopRun(req: TurnRequest, env: Environment): Result<TL.LoopOutcome, string> {
    TL.RunFrom(env.loop, env.config, TC.FilterTools(req.tools, req.choice), req.choice, 0, FirstText(env))
  }

  predicate EndsOnClientCalls(req: TurnRequest, env: Environment) {
    HasTools(req) && req.mode == Client && ClientCalls(req, env, FirstText(env)) != []
  }

  /** The server loop stopped with calls it did not run. */
  predicate StopsAtLimit(req: TurnRequest, env: Environment) {
    HasTools(req) && req.mode == Server && LoopRun(req, env).Success? && LoopRun(req, env).value.pending != []
  }

  predicate ToolsFail(req: TurnRequest, env: Environment) {
    && HasTools(req)
    && if req.mode == Client then
         var tools := TC.FilterTools(req.tools, req.choice);
         TC.AcceptedCalls(env.loop.lib, FirstText(env), tools, req.choice, env.clientCallId).Failure?
       else LoopRun(req, env).Failure?
  }

  /** The text the schema check looks at first. */
  function AnswerText(req: TurnRequest, env: Environment): string {
    if EndsOnClientCalls(req, env) then ""
    else if HasTools(req) && req.mode == Server && LoopRun(req, env).Success? then LoopRun(req, env).value.text
    else FirstText(env)
  }

  predicate AskedAgain(req: TurnRequest, env: Environment) {
    req.schema.Some? && env.schemaError(AnswerText(req, env), req.schema.value).Some?
  }

  predicate AgainFails(req: TurnRequest, env: Environment) {
    && AskedAgain(req, env)
    && (CollectPrompt(env.retry).Failure?
        || env.schemaError(CollectPrompt(env.retry).value.text, req.schema.value).Some?)
  }

  predicate RetryCut(req: TurnRequest, env: Environment) {
    AskedAgain(req, env) && CutByLength(env.retry)
  }

  // ---- What it says ----

  /** What the tools leave behind the agent's items: calls in order, then the text. */
  function Reported(req: TurnRequest, env: Environment): seq<OutputItem> {
    if EndsOnClientCalls(req, env) then CallsSaid(env.loop.lib, ClientCalls(req, env, FirstText(env)))
    else if HasTools(req) && req.mode == Server && LoopRun(req, env).Success? then
      var o := LoopRun(req, env).value;
      CallsSaid(env.loop.lib, TL.CallsIn(o.executed) + o.pending) + if o.pending == [] then TextSaid(o.text) else []
    else TextSaid(FirstText(env))
  }

  function TextSaid(text: string): seq<OutputItem> {
    if text == "" then [] else [Message("", "assistant", "completed", [text])]
  }

  function CallsSaid(lib: JsonLibrary, calls: seq<TC.FunctionCall>): seq<OutputItem> {
    if calls == [] then [] else
      var n := |calls| - 1;
      CallsSaid(lib, calls[..n])
      + [FunctionCall("", calls[n].callId, calls[n].name, lib.render(calls[n].arguments), "completed")]
  }

  lemma {:induction false} CallsAreSaid(lib: JsonLibrary, calls: seq<TC.FunctionCall>)
    ensures TL.CallItems(lib, calls) == CallsSaid(lib, calls)
  {
    if calls != [] {
      var n := |calls| - 1;
      CallsAreSaid(lib, calls[..n]);
      assert calls == calls[..n] + [calls[n]];
      TL.CallItemsAppend(lib, calls[..n], [calls[n]]);
    }
  }

  lemma LengthDecides(stream: Result<seq<PromptStreamEvent>, string>)
    requires CollectPrompt(stream).Success?
    ensures CollectPrompt(stream).value.finish.Length? <==> CutByLength(stream)
  {
  }

  /** The outcome of tool handling, case by case. */
  lemma ToolsOutcome(req: TurnRequest, env: Environment, items: seq<OutputItem>)
    requires CollectPrompt(env.first).Success?
    ensures var c := CollectPrompt(env.first).value;
      var o := AfterTools(req, env, c, items);
      && (o.Failure? <==> ToolsFail(req, env))
      && (o.Success? ==>
            && o.value.text == AnswerText(req, env) && o.value.usage == c.usage
            && o.value.outputs == items + Reported(req, env)
            && o.value.incompleteReason ==
                 if EndsOnClientCalls(req, env) then Some(ToolCalls)
                 else if StopsAtLimit(req, env) then Some(MaxToolSteps)
                 else if CutByLength(env.first) then Some(MaxOutputTokens) else None)
  {
    LengthDecides(env.first);
    hide Collect, TC.AcceptedCalls, TL.RunFrom, TL.CallsIn, CutByLength;
    var calls := ClientCalls(req, env, FirstText(env));
    CallsAreSaid(env.loop.lib, calls);
    if HasTools(req) && req.mode == Server && LoopRun(req, env).Success? {
      var o := LoopRun(req, env).value;
      TL.RunAccounting(env.loop, env.config, TC.FilterTools(req.tools, req.choice), req.choice, 0, FirstText(env));
      CallsAreSaid(env.loop.lib, TL.CallsIn(o.executed) + o.pending);
      hide TL.RoundsSound, TL.Chained, TL.CallsAt, CallsSaid, TL.CallItems;
    }
  }

  /** What the schema check makes of it. */
  lemma SchemaOutcome(req: TurnRequest, env: Environment, first: TurnOutcome)
    requires first.text == AnswerText(req, env)
    ensures var o := AfterSchema(req, env, first);
      && (o.Failure? <==> AgainFails(req, env))
      && (o.Success? && !AskedAgain(req, env) ==> o.value == first)
      && (o.Success? && AskedAgain(req, env) ==>
            && CollectPrompt(env.retry).Success?
            && o.value.usage == CollectPrompt(env.retry).value.usage
            && o.value.outputs == (if first.outputs == [] then TextSaid(CollectPrompt(env.retry).value.text)
                                   else first.outputs)
            && o.value.incompleteReason == (if CutByLength(env.retry) then Some(MaxOutputTokens)
                                            else first.incompleteReason))
  {
    if CollectPrompt(env.retry).Success? {
      LengthDecides(env.retry);
    }
    hide Collect, AnswerText, CutByLength;
  }

  /** The reason a turn is incomplete. */
  function Reason(req: TurnRequest, env: Environment): Option<string> {
    if RetryCut(req, env) then Some("max_output_tokens")
    else if EndsOnClientCalls(req, env) then Some("tool_calls")
    else if StopsAtLimit(req, env) then Some("max_tool_steps")
    else if CutByLength(env.first) then Some("max_output_tokens")
    else None
  }

  lemma {:induction false} TurnOutcomeOf(req: TurnRequest, env: Environment, reasoning: bool)
    ensures var o := Turn(req, env, reasoning);
      && (o.Failure? <==> CollectPrompt(env.first).Failure? || ToolsFail(req, env) || AgainFails(req, env))
      && (o.Success? ==>
            var items := AgentItems(Live(EventsOf(env.first)), env.streamAgentTools, reasoning)
                         + Reported(req, env);
            && (AskedAgain(req, env) ==> CollectPrompt(env.retry).Success?)
            && o.value.outputs == (if items == [] && AskedAgain(req, env)
                                   then TextSaid(CollectPrompt(env.retry).value.text) else items)
            && o.value.usage == CollectPrompt(if AskedAgain(req, env) then env.retry else env.first).value.usage)
  {
    hide Collect, ToolsFail, AgainFails, AskedAgain, AfterTools, AfterSchema, AnswerText, Reported, AgentItems, Live;
    hide EndsOnClientCalls, StopsAtLimit, CutByLength, TextSaid;
    if CollectPrompt(env.first).Success? {
      var items := AgentItems(Live(EventsOf(env.first)), env.streamAgentTools, reasoning);
      ToolsOutcome(req, env, items);
      var o := AfterTools(req, env, CollectPrompt(env.first).value, items);
      if o.Success? {
        SchemaOutcome(req, env, o.value);
      }
    }
  }

  lemma {:induction false} ReasonOf(req: TurnRequest, env: Environment, reasoning: bool)
    requires Turn(req, env, reasoning).Success?
    ensures var reason := Turn(req, env, reasoning).value.incompleteReason;
      Reason(req, env) == if reason.Some? then Some(reason.value.AsString()) else None
  {
    hide Collect, ToolsFail, AgainFails, AskedAgain, AfterTools, AfterSchema, AnswerText, Reported, AgentItems, Live;
    hide EndsOnClientCalls, StopsAtLimit, CutByLength, TextSaid;
    var items := AgentItems(Live(EventsOf(env.first)), env.streamAgentTools, reasoning);
    ToolsOutcome(req, env, items);
    SchemaOutcome(req, env, AfterTools(req, env, CollectPrompt(env.first).value, items).value);
  }

  /** The whole answer of a turn: when it fails, which items it has, whose usage it
      reports, and what is passed through. */
  lemma {:induction false} TurnAnswer(req: TurnRequest, env: Environment, id: string, model: string, reasoning: bool)
    ensures var r := FinalResponse(req, env, id, model, reasoning);
      && (r.Failure? <==>
            || env.enrichError.Some? || CollectPrompt(env.first).Failure?
            || ToolsFail(req, env) || AgainFails(req, env))
      && (r.Success? ==>
            var items := AgentItems(Live(EventsOf(env.first)), env.streamAgentTools, reasoning)
                         + Reported(req, env);
            && (AskedAgain(req, env) ==> CollectPrompt(env.retry).Success?)
            && r.value.output == (if items == [] && AskedAgain(req, env)
                                  then TextSaid(CollectPrompt(env.retry).value.text) else items)
            && r.value.usage == Some(CollectPrompt(if AskedAgain(req, env) then env.retry else env.first).value.usage)
            && r.value.id == id && r.value.model == model
            && r.value.metadata == req.metadata && r.value.previousResponseId == req.previousResponseId)
  {
    TurnOutcomeOf(req, env, reasoning);
    hide Turn, Collect, ToolsFail, AgainFails, AskedAgain, Reported, Reason, AgentItems, Live, TextSaid;
  }

  /** The status of a turn and the reason when it is incomplete, from what happened:
      client calls, a loop stopped with calls pending, or a stream cut by length, where
      a retry that was cut outweighs the rest. */
  lemma TurnReason(req: TurnRequest, env: Environment, id: string, model: string, reasoning: bool)
    requires FinalResponse(req, env, id, model, reasoning).Success?
    ensures var r := FinalResponse(req, env, id, model, reasoning).value;
      var reason := r.incompleteDetails;
      && (reason == Some("tool_calls") <==> EndsOnClientCalls(req, env) && !RetryCut(req, env))
      && (reason == Some("max_tool_steps") <==> StopsAtLimit(req, env) && !RetryCut(req, env))
      && (reason == Some("max_output_tokens") <==>
            || RetryCut(req, env)
            || (CutByLength(env.first) && !EndsOnClientCalls(req, env) && !StopsAtLimit(req, env)))
      && (reason.None? <==>
            && !RetryCut(req, env) && !EndsOnClientCalls(req, env)
            && !StopsAtLimit(req, env) && !CutByLength(env.first))
      && r.status == (if reason.Some? then "incomplete" else "completed")
  {
    ReasonOf(req, env, reasoning);
    OneReason(req, env);
    hide Turn, Collect, ToolsFail, AgainFails, AskedAgain, Reported, AgentItems, Live, TextSaid;
    hide EndsOnClientCalls, StopsAtLimit, CutByLength, RetryCut;
  }

  lemma OneReason(req: TurnRequest, env: Environment)
    ensures !(EndsOnClientCalls(req, env) && StopsAtLimit(req, env))
  {
  }
}
