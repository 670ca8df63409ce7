/** What one turn of the Responses API must come to, up to generated ids
    (crates/copenai-server/src/tools/orchestrate.rs,
    crates/copenai-server/src/responses/orchestrator.rs). */
module TurnSpec {
  import opened Wrappers
  import opened Events
  import opened Json
  import opened Items
  import opened Drain
  import TC = ToolCalls
  import TL = ToolLoop

  datatype Mode = Client | Server

  datatype IncompleteReason = MaxOutputTokens | MaxToolSteps | ToolCalls {

    function AsString(): string {
      match this
      case MaxOutputTokens => "max_output_tokens"
      case MaxToolSteps => "max_tool_steps"
      case ToolCalls => "tool_calls"
    }
  }

  /** The parts of a request the turn depends on. schema is the JSON schema the
      answer must satisfy, when one is asked for. */
  datatype TurnRequest = TurnRequest(
    tools: seq<TC.FunctionTool>,
    choice: TC.ToolChoice,
    mode: Mode,
    parallel: bool,
    includeReasoning: bool,
    schema: Option<Json>,
    metadata: Option<map<string, string>>,
    previousResponseId: Option<string>)

  /** Configuration and everything that answers from outside: the event streams of
      the first prompt and of a schema retry, the loop's oracles, the schema check. */
  datatype Environment = Environment(
    config: TL.LoopConfig,
    streamAgentTools: bool,
    enrichError: Option<string>,
    first: Result<seq<PromptStreamEvent>, string>,
    retry: Result<seq<PromptStreamEvent>, string>,
    loop: TL.Oracles,
    clientCallId: nat -> string,
    schemaError: (string, Json) -> Option<string>)

  datatype TurnOutcome = TurnOutcome(text: string, outputs: seq<OutputItem>, usage: UsageSnapshot,
                                     incompleteReason: Option<IncompleteReason>)

  function MessageOf(text: string): seq<OutputItem> {
    if text == "" then [] else [MessageText(text, "")]
  }

  function EventsOf(stream: Result<seq<PromptStreamEvent>, string>): seq<PromptStreamEvent> {
    if stream.Success? then stream.value else []
  }

  function CollectPrompt(stream: Result<seq<PromptStreamEvent>, string>): Result<Collected, string> {
    if stream.Failure? then Failure(stream.error) else Collect(stream.value)
  }

  function LengthReason(finish: FinishReason): Option<IncompleteReason> {
    if finish.Length? then Some(MaxOutputTokens) else None
  }

  /** Tool handling: client calls end the turn, the server loop runs them, plain
      text becomes a message. */
  function AfterTools(req: TurnRequest, env: Environment, c: Collected,
                      items: seq<OutputItem>): Result<TurnOutcome, string>
  {
    var tools := TC.FilterTools(req.tools, req.choice);
    var reason := LengthReason(c.finish);
    if tools == [] then
      Success(TurnOutcome(c.text, items + MessageOf(c.text), c.usage, reason))
    else if req.mode.Client? then
      var calls :- TC.AcceptedCalls(env.loop.lib, c.text, tools, req.choice, env.clientCallId);
      if calls == [] then Success(TurnOutcome(c.text, items + MessageOf(c.text), c.usage, reason))
      else Success(TurnOutcome("", items + TL.CallItems(env.loop.lib, calls), c.usage, Some(ToolCalls)))
    else
      var o :- TL.RunFrom(env.loop, env.config, tools, req.choice, 0, c.text);
      Success(TurnOutcome(o.text, items + TL.ReportedItems(env.loop.lib, o), c.usage,
                          if o.hitLimit then Some(MaxToolSteps) else reason))
  }

  predicate SchemaOk(req: TurnRequest, env: Environment, text: string) {
    req.schema.Some? ==> env.schemaError(text, req.schema.value).None?
  }

  /** Structured output: a text that violates the schema is asked for once more. */
  function AfterSchema(req: TurnRequest, env: Environment, o: TurnOutcome): Result<TurnOutcome, string> {
    if SchemaOk(req, env, o.text) then Success(o) else
      var again :- CollectPrompt(env.retry);
      if !SchemaOk(req, env, again.text) then Failure(env.schemaError(again.text, req.schema.value).value)
      else Success(TurnOutcome(
        again.text,
        if o.outputs == [] then MessageOf(again.text) else o.outputs,
        again.usage,
        if again.finish.Length? then Some(MaxOutputTokens) else o.incompleteReason))
  }

  function TurnFrom(req: TurnRequest, env: Environment, c: Collected,
                    items: seq<OutputItem>): Result<TurnOutcome, string>
  {
    var o :- AfterTools(req, env, c, items);
    AfterSchema(req, env, o)
  }

  /** The whole turn. reasoning says whether thoughts become output items. */
  function Turn(req: TurnRequest, env: Environment, reasoning: bool): Result<TurnOutcome, string> {
    var c :- CollectPrompt(env.first);
    TurnFrom(req, env, c, AgentItems(Live(EventsOf(env.first)), env.streamAgentTools, reasoning))
  }

  function FinishedResponse(req: TurnRequest, id: string, model: string, o: TurnOutcome): ResponseObject {
    ResponseObject(id, 0, model, if o.incompleteReason.Some? then "incomplete" else "completed",
                   o.outputs, Some(o.usage),
                   if o.incompleteReason.Some? then Some(o.incompleteReason.value.AsString()) else None,
                   req.metadata, req.previousResponseId)
  }

  /** The response a request ends in, up to generated ids and timestamps. */
  function FinalResponse(req: TurnRequest, env: Environment, id: string, model: string, reasoning: bool)
    : Result<ResponseObject, string>
  {
    if env.enrichError.Some? then Failure(env.enrichError.value) else
      var o :- Turn(req, env, reasoning);
      Success(FinishedResponse(req, id, model, o))
  }

  /** The calls a client is asked to run, if the turn ends in any. */
  function ClientCalls(req: TurnRequest, env: Environment, text: string): seq<TC.FunctionCall> {
    var tools := TC.FilterTools(req.tools, req.choice);
    if tools == [] || !req.mode.Client? then [] else
      var calls := TC.AcceptedCalls(env.loop.lib, text, tools, req.choice, env.clientCallId);
      if calls.Success? then calls.value else []
  }
}
