# copenai, modelled and verified

copenai puts an OpenAI-shaped server in front of a coding agent. It turns the
agent's event stream into Chat Completions and Responses answers, whole or
streamed, runs tool calls against a webhook, remembers responses so that later
requests can continue them, asks a human for permissions, and routes each
conversation to its own worker process. This project models the parts of it that
are loops over state, and proves what those loops promise. `dafny verify
dfyconfig.toml` checks all of it.

| Modules | Part of the program |
|---|---|
| `Responses`, `ResponseChain`, `Multiplicity`, `ChainRuns`, `ChainLaws`, `RowHistory` | stored responses, the walk along their previous pointers, and what whole runs of overlapping requests hand on |
| `Events`, `Worker` | the events of one prompt, and the worker that produces them |
| `Items`, `Drain`, `Emitted`, `StreamSpec`, `Streaming`, `TurnSpec`, `TurnLaws`, `ResponsesTurn`, `TurnAnswers` | a Responses turn, answered at once or streamed |
| `ChatStream`, `ChatTurn`, `SseFrames`, `Wire` | a chat answer, its chunks, and the text on the wire |
| `ToolCalls`, `ToolLoop` | calls found in an answer, and the server-side tool loop |
| `Permissions`, `Supervisor` | two concurrent protocols, as interleaved steps |
| `CommandLine` | the quoted command line, and the shell's reading of it |
| `History`, `RequestParser`, `FilePages`, `ResponsePages` | loops with exact specifications |
| `Wrappers`, `Sequences`, `Json` | vocabulary |

Everything outside the program is arbitrary: the agent's events, the webhook's
answers, JSON parsing and schema checks, generated ids, clocks and the order in
which concurrent steps happen are parameters, havoc or nondeterministic steps.
Objects whose methods change fields are classes (`ResponseStore`,
`PermissionStore`, `ConversationSupervisor`, `Conversation`); their methods are
tied to functions on the table, and the same functions are the steps of the
protocols, so what is proved of runs is proved of the methods' effects. A request's
walk along the stored chain is a step per row there, so other requests may run
between two reads. `Reaches` and `Run` say what a run is; statements about runs
quantify over all of them.

The functions the methods are tied to are in turn stated from the inputs, one event,
item or row at a time and in the literal texts and numbers of the protocol: see for
example `TurnAnswers.TurnReason`, `ToolCalls.AllCallsFound`, `Worker.QueueForwards`,
`RowHistory.LastWriteStands` and `RequestParser.OneMoreItem`.

Two answers are compared up to what a client cannot predict: `Comparable` drops
the timestamp and the generated item ids and keeps everything else.

## What does not hold

Some things one would expect turn out to hold only under a condition. Each has a
lemma that gives the exact condition, or a concrete run, and mostly both.

- A tool output submitted d saved links back arrives 2^(d-1) times for every d
  only if each saved response of the lineage was saved before a later one read its
  row (`ChainLaws.DoublingPerLink`, `ChainLaws.SavedTooLate`).
- Reasoning items appear in the unstreamed response but not in the streamed one
  (`TurnLaws.SyncAndStreamAgree`, `TurnLaws.ThoughtShownOnce`).
- The text that passed the schema check on a retry is returned as the turn's text
  but becomes an output only if nothing had been reported before
  (`TurnLaws.ValidatedTextIsDelivered`, `TurnLaws.RetryNotDelivered`).
- A streamed output index is wrong when text follows a shown tool or begins after a
  shown thought, when a tool starts while a thought or the message is shown whose
  slot no tool has taken, and when an update of an unknown tool finds no such slot.
  The message lifecycle is wrong as well when a tool takes the message's slot
  (`Streaming.DrainStream`, `Streaming.ThoughtBeforeText`,
  `Streaming.UpdateOfUnknownTool`).
- An item closed in the stream is not always what the completed response has at
  that index: an agent tool is later updated with something new, or text is streamed
  and client calls follow (`TurnLaws.InPlaceExactly`, `TurnLaws.ToolUpdatedLater`,
  `TurnLaws.CallsAfterText`).
- After a webhook error with agent fallback only the first call of the batch is
  answered (`ToolLoop.AnsweredExactlyWhenNoneFailed`,
  `ToolLoop.FallbackAnswersOne`).
- An accepted approval is lost when it arrives after the handler's last poll, or when
  it names no option (`Permissions.ApprovalCanBeLost`,
  `Permissions.ApprovalWithoutOption`).
- A worker is forgotten, open and never told to shut down, when a second start or a
  watcher of its conversation displaces it (`Supervisor.NoWorkerForgotten`,
  `Supervisor.TwoStarts`, `Supervisor.UnlistedForGood`).
- The entry of a closed worker stays, and later prompts fail on it, when its watcher
  ran before the worker was listed (`Supervisor.ListedIsWatched`,
  `Supervisor.StaleEntry`, `Supervisor.StaleRefuses`).
- The parsed history is not in conversation order when an assistant message stands
  between a non-empty user message and the next one
  (`RequestParser.ChronologicalExactly`, `RequestParser.AnswerBeforeQuestion`).
- Paging through responses skips rows when a page ends between two rows created at
  the same time (`ResponsePages.PagingShowsAll`, `ResponsePages.TieSkipsARow`).
- Empty arguments vanish from the quoted command line
  (`CommandLine.CommandStringExact`).

## Model

| member | source | states |
|---|---|---|
| `Responses.ResponseStore.Create` | crates/copenai-store/src/responses.rs:63-88 | A new row is in progress with its previous pointer and no output or chain; a taken id is refused and changes nothing |
| `Responses.ResponseStore.Get` | crates/copenai-store/src/responses.rs:90-98 | The row stored under the id, if any |
| `Responses.ResponseStore.UpdateCompleted` | crates/copenai-store/src/responses.rs:100-124 | The row of a known id gets this status, this output and this time, its chain only when one is given; its other columns and every other row stay |
| `Responses.ResponseStore.Cancel` | crates/copenai-store/src/responses.rs:126-137 | True exactly for a known id; its status becomes "cancelled", an empty completion time is filled in, its other columns and every other row stay |
| `Responses.ResponseStore.ChainInputItems` | crates/copenai-store/src/responses.rs:183-214 | The walk terminates on every table, cyclic or not, and returns the reverse of the concatenated per-row items, or the absent id |
| `Responses.ResponseStore.PushRowItems` | crates/copenai-store/src/responses.rs:193-207 | A row contributes its saved chain, none if that is unreadable; without a chain its mappable outputs, in order |
| `Responses.SamePointersSameWalk` | crates/copenai-store/src/responses.rs:183-214 | The walk depends on the stored ids and pointers alone |
| `Responses.WalkIsMaximal` | crates/copenai-store/src/responses.rs:183-214 | The rows visited are a maximal repetition-free pointer path, no longer than the table; the walk fails exactly when that path leads to an absent id, and names it |
| `Responses.MaximalIsUnique` | crates/copenai-store/src/responses.rs:183-214 | There is exactly one maximal repetition-free pointer path from a row, so the walk is determined by the pointers alone |
| `Responses.CancelChangesNoChain` | crates/copenai-store/src/responses.rs:126-137 | Cancelling any row changes no chain that any request would inherit |
| `ResponseChain.OutputItemToChain` | crates/copenai-server/src/responses/orchestrator.rs:329-361 | What is remembered of an output item never reads back as a tool output |
| `ResponseChain.BuildInputChainItems` | crates/copenai-server/src/responses/orchestrator.rs:309-327 | All tool outputs in order, then the remembered output items in order |
| `ResponseChain.ChainReadsBack` | crates/copenai-server/src/responses/orchestrator.rs:253-327 | Reading a saved chain gives back exactly the tool outputs that were saved, in order, whatever the response said |
| `ResponseChain.EnrichFromPrevious` | crates/copenai-server/src/responses/orchestrator.rs:253-274 | The request's own tool outputs, then those of the whole inherited chain; nothing is inherited without a previous id, and an absent ancestor is an error |
| `ResponseChain.RecordRequest` | crates/copenai-server/src/responses/orchestrator.rs:28-46 | A row is created before the run exactly when storing is asked for or a previous response is named |
| `ResponseChain.PersistResponse` | crates/copenai-server/src/responses/orchestrator.rs:276-307 | The row of a known id gets the status and output of the response and the given time, and a chain that reads back as the enriched outputs; every other row stays |
| `ChainRuns.StepKeepsInv` | crates/copenai-server/src/responses/orchestrator.rs:15-46 | Every step of any interleaving of requests (submit, begin a walk, read one row, finish it, persist, abandon, cancel) keeps pointers backward, saved chains equal to what was enriched, and the copy law of every response and of every walk under way |
| `ChainRuns.RunsKeepInv` | crates/copenai-server/src/responses/orchestrator.rs:253-307 | The same for every run from the empty store |
| `ChainLaws.UndisturbedWalk` | crates/copenai-store/src/responses.rs:183-214 | Reading the rows one by one without interruption gives exactly what the whole walk gives, or fails where it fails |
| `ChainLaws.PointersGoBack` | crates/copenai-store/src/responses.rs:63-137 | In every reachable store a pointer dangles or leads to an older row, and no row is its own ancestor |
| `ChainLaws.GuardNeverCuts` | crates/copenai-store/src/responses.rs:183-214 | In every reachable store the cycle guard never ends a walk: a walk that succeeds ends where the pointers end, within the number of rows |
| `ChainLaws.NoneLostNoneInvented` | crates/copenai-server/src/responses/orchestrator.rs:253-327 | A turn works with x exactly when the request submitted x or an ancestor that was saved when its row was read did |
| `ChainLaws.MultiplicityLaw` | crates/copenai-server/src/responses/orchestrator.rs:253-327 | How often x reaches a turn: the sum over the lineage of how often each submitted it, times the number of ways it was handed on; the lineage may be counted in all stored ancestors, in the saved ones, or in those seen |
| `ChainLaws.DoublingPerLink` | crates/copenai-server/src/responses/orchestrator.rs:253-327 | For any choice of links, such as the saved ancestors: a submission d links back arrives 2^(d-1) times for every d exactly when every link was read only after all links behind it were saved; never more often. Ancestors that are no links, such as abandoned turns, neither count nor matter |
| `ChainLaws.EveryRun` | crates/copenai-server/src/responses/orchestrator.rs:253-327 | All of this for whatever any run of the store reaches, counted in saved links (saved by now, or by the time of reading); in a settled lineage the count is own(0) + 1 own(1) + 2 own(2) + 4 own(3) + ... |
| `ChainLaws.SavedTooLate` | crates/copenai-server/src/responses/orchestrator.rs:253-307 | A concrete run of two overlapping requests in which a saved ancestor's tool output is missing from its follow-up |
| `RowHistory.LastWriteStands` | crates/copenai-store/src/responses.rs:63-137 | In every reachable store a row has the status, output and completion time that the last submit, save or cancel of its id wrote: "in_progress" with neither, the saved ones, or "cancelled" with what was saved and the earlier time |
| `RowHistory.CompletedStays` | crates/copenai-server/src/responses/orchestrator.rs:276-307 | A response that was saved keeps its status, output and time through every later step of other requests, until it is cancelled or saved again |
| `Multiplicity.TotalIsSubmitted` | crates/copenai-server/src/responses/orchestrator.rs:276-327 | Unfolding "each saved chain carries what it inherited" along a lineage gives every submission times its copies |
| `Multiplicity.DoublingExactlyWhenAllSee` | crates/copenai-server/src/responses/orchestrator.rs:276-327 | Copies double per link exactly when every position sees all positions behind it |
| `Multiplicity.AtMostDoubled` | crates/copenai-server/src/responses/orchestrator.rs:276-327 | In no case are there more than 2^(d-1) copies |
| `Events.FromAcp` | crates/copenai-acp/src/backend.rs:16-24 | A reported usage is saturated to 32 bits; it has a total exactly when the agent reported anything, and is then sound |
| `Events.EstimateExactness` | crates/copenai-acp/src/backend.rs:26-35 | The 32-bit casts and the addition of an estimate (a quarter of the characters, at least one for the prompt) lose nothing exactly when the true total fits 32 bits; character counts below 2^33 always give a sound report |
| `Events.CollectStream` | crates/copenai-acp/src/backend.rs:118-143 | The first terminal event decides: its full text, usage and finish, or its error; without one the deltas, the last usage and a plain stop |
| `Events.FirstTerminalDecides` | crates/copenai-acp/src/backend.rs:118-143 | The first Done is the whole answer and the first error the only one, whatever follows |
| `Events.CollectMore` | crates/copenai-acp/src/backend.rs:118-143 | Without a terminal event the answer is the text of the deltas, the last report and a plain stop; each further event changes only what it carries |
| `Worker.SinkEvent` | crates/copenai-acp/src/worker.rs:96-148 | No notification becomes a terminal event; what each becomes is stated by the prompt it belongs to |
| `Worker.Queue` | crates/copenai-acp/src/worker.rs:96-148 | The sink queues no terminal event, and every usage report with a total is sound |
| `Worker.QueueForwards` | crates/copenai-acp/src/worker.rs:96-148 | The queue says what the notifications say: its deltas are their message texts, its thoughts their thought texts, its tool events their tool notices, its reports their usage updates cut to 32 bits, each in order; and every front of it says what a front of them says |
| `Worker.CheckBlocks` | crates/copenai-acp/src/worker.rs:434-444 | Refused exactly when some audio or image block is not supported, with the message of the first such block |
| `Worker.Drain` | crates/copenai-acp/src/worker.rs:466-490 | Any prefix of the queued events is forwarded in order; the collected text is its deltas, the usage its last report |
| `Worker.EndOfPrompt` | crates/copenai-acp/src/worker.rs:492-520 | The end of a prompt: the text of the deltas, "length" exactly for a token limit, "content_filter" exactly for a refusal, "stop" for all else, and the last report if it has a total, else a quarter of the prompt characters, at least one, and of the bytes of the answer |
| `Worker.BytesCounted` | crates/copenai-acp/src/worker.rs:492-494 | Text is counted in bytes, one to four for a character, and the count adds up |
| `Worker.ExecutePrompt` | crates/copenai-acp/src/worker.rs:421-525 | It fails exactly when sampling, a block, the agent or the store does, with the error of the first of these; otherwise what was drained is followed by one Done with the concatenated deltas and the last usage report, or an estimate that is sound unless it overflows 32 bits |
| `Worker.RunPrompt` | crates/copenai-acp/src/worker.rs:319-353 | Every prompt with a live consumer yields what the agent notified, a front of it event by event and all of it unless the drain goes idle first, and then one terminal event: the error of the first step that failed, or a Done with the text, the stop reason and the usage of what was sent |
| `Worker.WorkerStreamCollects` | crates/copenai-acp/src/backend.rs:118-143 | A consumer of a worker stream succeeds exactly on Done, with the concatenated deltas as text |
| `SseFrames.FramesReadBack` | crates/copenai-openai/src/sse.rs:194-246 | An event-stream reader dispatches exactly the framed payloads, in order, for all one-line payloads |
| `Wire.ChatTextReadsBack` | crates/copenai-openai/src/sse.rs:194-246 | A client that reads the text and parses each payload recovers exactly the chunk frames and the final marker |
| `Wire.ResponsesSseStream` | crates/copenai-openai/src/responses/sse.rs:75-97 | The client reads every event once, in order, under the type of its kind and no other and numbered consecutively from zero, and then the [DONE] marker |
| `ChatStream.LiveSseStream` | crates/copenai-openai/src/sse.rs:194-246 | Role chunk, text chunks of which the first repeats the role, tool chunks, one finish chunk or one error, one final marker, all of one id and model; reassembled they say what the events said |
| `ChatStream.ChatPlain` | crates/copenai-server/src/routes.rs:185-285 | The unstreamed answer carries text, usage and finish reason of the common reading of the events, empty text as no content, or the same error |
| `ChatStream.PlainChatAgrees` | crates/copenai-server/src/routes.rs:327-350 | Streamed and unstreamed plain chat fail together with the same message, finish for the same reason, and carry the same content exactly when a final Done repeats the deltas |
| `ChatStream.ToolChatAgrees` | crates/copenai-server/src/routes.rs:287-325 | The streamed and unstreamed answer of a tool turn agree exactly when it does not report both calls and text |
| `ChatTurn.ExecuteChatTurn` | crates/copenai-server/src/tools/orchestrate.rs:309-417 | The chat turn on every path: client calls clear the text and finish with tool_calls, the server loop replaces the text, the incomplete reason is the limit or the length |
| `ChatTurn.ChatOutcome` | crates/copenai-server/src/tools/orchestrate.rs:309-417 | A turn that reports calls has no text and finishes with tool_calls |
| `ChatTurn.CallsToChatToolCalls` | crates/copenai-server/src/tools/orchestrate.rs:420-437 | Every call is passed on with its name, its arguments as text and its own id, or one made of its position when it has none |
| `ChatTurn.DecimalReadsBack` | crates/copenai-server/src/tools/orchestrate.rs:420-437 | The id made for a call reads back as its position, so no two calls share one |
| `ChatTurn.OutcomeAnswers` | crates/copenai-server/src/tools/orchestrate.rs:309-417 | The turn fails exactly when the prompt, a call or the server loop does; it answers with the client's calls, no text and "tool_calls", or with the loop's or the agent's text and the reason the agent's stream ended in; the usage is the agent's |
| `ChatTurn.AnswerWithTools` | crates/copenai-server/src/routes.rs:151-180 | The completion of the chat turn or its error: its text, the calls by name, arguments and id, its finish reason and usage, all read off the agent's stream |
| `ChatTurn.StreamWithTools` | crates/copenai-server/src/routes.rs:287-325 | The streamed tool turn fails with the same error, or its chunks reassemble to exactly the unstreamed completion: the same text, calls and finish reason |
| `ChatTurn.StreamPlain` | crates/copenai-server/src/routes.rs:217-235 | The streamed plain answer has the right shape, says the deltas and the reason the stream ended in, and says the same as the unstreamed one for every worker stream |
| `Drain.ApplyAgentToolEvent` | crates/copenai-server/src/tools/orchestrate.rs:695-722 | The index map stays equal to a linear scan for the last item of each id; a start appends, an update replaces that last item or appends |
| `Drain.ReasoningKeepsIndex` | crates/copenai-server/src/tools/orchestrate.rs:514-516 | Reasoning items appended in between never disturb the index map |
| `Drain.OneMoreEvent` | crates/copenai-server/src/tools/orchestrate.rs:493-530 | One more event leaves one more item for a thought that is asked for, a started tool or an unknown one, replaces the last item of a tool that is updated, and else leaves all as it is; the fields of each item are the event's |
| `Items.AgentName` | crates/copenai-openai/src/responses/output.rs:127-142 | An agent tool's name is its title in small letters, digits and underscores, without underscores at its ends, cut after 64 characters |
| `Drain.DrainSync` | crates/copenai-server/src/tools/orchestrate.rs:493-530 | Text, usage and finish of the common reading, the agent items in order up to generated ids, and an index map that agrees with them |
| `Streaming.DrainStream` | crates/copenai-server/src/tools/orchestrate.rs:532-693 | The same result as the unstreamed drain without reasoning. The emitted deltas are the agent's, under one item id; every thought, tool event and closed item is shown, in order and with its index; the announced items are exactly the message at its first delta, each shown thought and each started tool, each right before its own content. On every run, also one that fails after text, all indexes are right exactly when each event fits: a tool starts with nothing in surplus, an update of an unknown tool finds a surplus, text comes while no tool is shown, and its first piece while nothing is. The message lifecycle of a finished run is right exactly when it fits and no tool comes in the way of text; of a failed run, as far as it got, exactly when it fits |
| `StreamSpec.OneMoreAnnounced` | crates/copenai-server/src/tools/orchestrate.rs:532-693 | What the next event announces: the message in the first slot at the first delta, a shown thought behind all that was announced, a started tool behind the items kept, and nothing else |
| `StreamSpec.OneMoreShown` | crates/copenai-server/src/tools/orchestrate.rs:532-693 | What the next event shows and closes: a thought, or a tool item in place of the last one of that tool if it is an update of one, else behind the items kept |
| `StreamSpec.OneMoreSlot` | crates/copenai-server/src/tools/orchestrate.rs:532-693 | What stands in the first slot, and with what it is closed: the whole text if it is the message, else as it is |
| `StreamSpec.SteadyExactly` | crates/copenai-server/src/tools/orchestrate.rs:695-722 | Every tool item is kept where and as it was closed exactly when no update of a known tool says something new |
| `Streaming.ThoughtBeforeText` | crates/copenai-server/src/tools/orchestrate.rs:532-693 | A thought before the text breaks the message events of every such run |
| `Streaming.UpdateOfUnknownTool` | crates/copenai-server/src/tools/orchestrate.rs:619-650 | A run whose only event updates an unknown tool closes it at an index the snapshot does not have |
| `Items.NewItemId` | crates/copenai-openai/src/responses/output.rs:144-146 | A generated id starts with its prefix and an underscore and is otherwise arbitrary |
| `Items.CompletedResponse` | crates/copenai-openai/src/responses/sse.rs:240-259 | Text becomes a message only in an empty output; status and usage are set, everything else is kept |
| `ResponsesTurn.EmitToolSseEvents` | crates/copenai-server/src/tools/orchestrate.rs:743-790 | Exactly the events of these calls, one after the other: added, arguments, done, each with an index that points at its item in the snapshot it travels with; every call is announced once, and its arguments are streamed whole and before its end |
| `ResponsesTurn.HandleTools` | crates/copenai-server/src/tools/orchestrate.rs:176-250 | Client calls end the turn, clear the text and are announced and streamed exactly as reported, the server loop runs and reports, plain text becomes a message |
| `ResponsesTurn.CheckSchema` | crates/copenai-server/src/tools/orchestrate.rs:252-291 | A text that violates the schema is asked for once more; the second text must satisfy it, and becomes an output only if there is none yet |
| `ResponsesTurn.ExecuteResponsesTurn` | crates/copenai-server/src/tools/orchestrate.rs:126-307 | The turn comes to the same outcome on both paths, up to generated ids and reasoning; the streamed path emits exactly the agent's deltas announces what the agent showed and then the calls the client is asked to run, each right before its content, and its message events and indexes are right exactly for a run that fits and is in step, also when the turn fails |
| `ResponsesTurn.RunSync` | crates/copenai-server/src/responses/orchestrator.rs:110-155 | The final response of the request, created now, or its error |
| `ResponsesTurn.RunStream` | crates/copenai-server/src/responses/orchestrator.rs:157-245 | Created and in progress with the same opening snapshot, protocol events closing with the client's calls, then one completed event with the final response, or one failed event with its error and the opening snapshot. Every item is announced exactly once, right before its content. Over the whole stream, failed or completed, indexes and message lifecycle are right exactly for a run that fits and is in step, and every closed item is what the completed response has at its index exactly for a turn in place |
| `TurnAnswers.TurnAnswer` | crates/copenai-server/src/tools/orchestrate.rs:126-307 | When a turn fails, which items its response has, in order, and whose usage it reports: the first prompt's, or the retry's exactly when the answer was asked for again; id, model, metadata and previous id are passed through |
| `TurnAnswers.TurnReason` | crates/copenai-server/src/tools/orchestrate.rs:176-307 | A response is incomplete with "tool_calls" exactly when the turn ends on client calls, with "max_tool_steps" exactly when the server loop stops with calls pending, unless a retry was cut by length; with "max_output_tokens" exactly when the retry, or with neither of these the first stream, was cut; else it is completed without a reason |
| `TurnLaws.TextLeavesOutput` | crates/copenai-server/src/tools/orchestrate.rs:126-307 | A turn with non-empty text leaves a non-empty output list on every path, client, server and schema retry, with or without tools |
| `TurnLaws.SyncAndStreamAgree` | crates/copenai-server/src/responses/orchestrator.rs:110-237 | Sync and streamed turns end in the same response or error, up to ids and timestamps, exactly unless reasoning was asked for and the agent did think |
| `TurnLaws.ValidatedTextIsDelivered` | crates/copenai-server/src/tools/orchestrate.rs:252-291 | With or without tools: the text that passed the schema check is the last output exactly when the first text passed and the turn ended on it (no tools, no client calls, or a server loop within its limit), or it failed and nothing had been reported |
| `TurnLaws.ThoughtShownOnce` | crates/copenai-server/src/responses/orchestrator.rs:110-237 | One thought, asked for, is in the response answered at once and missing from the streamed one |
| `TurnLaws.RetryNotDelivered` | crates/copenai-server/src/tools/orchestrate.rs:252-291 | A first text that fails the check stays the only output, whatever text then passes |
| `TurnLaws.InPlaceExactly` | crates/copenai-server/src/responses/orchestrator.rs:157-237 | Every item a streamed turn closes is what its response has at that index exactly when no update of a shown tool says something new, the first slot ends up as the first output, and client calls come with no agent item |
| `TurnLaws.ToolUpdatedLater` | crates/copenai-server/src/tools/orchestrate.rs:619-650 | A started tool, closed as it started, and updated with another input is not what the completed response has at its index |
| `TurnLaws.CallsAfterText` | crates/copenai-server/src/tools/orchestrate.rs:176-196 | Streamed text that turns out to be client calls is closed as a message where the response has the first call |
| `TurnLaws.AgentItemsReasoning` | crates/copenai-server/src/tools/orchestrate.rs:493-530 | Thoughts become items exactly when asked for, and the other items do not depend on it |
| `ToolCalls.FilterTools` | crates/copenai-openai/src/tools/choice.rs:89-97 | Exactly the tools the choice allows |
| `ToolCalls.FilterTwice` | crates/copenai-server/src/tools/tool_loop.rs:45-50 | Filtering already filtered tools changes nothing |
| `ToolCalls.SingleCall` | crates/copenai-openai/src/tools/detect.rs:107-146 | A call object is accepted exactly when it names an offered tool, under its own id or the generated one |
| `ToolCalls.CallReadsBack` | crates/copenai-openai/src/tools/detect.rs:107-146 | A call written flat or nested, with its arguments as a value or as their text, reads back as itself |
| `ToolCalls.IdsApart` | crates/copenai-openai/src/tools/detect.rs:137-154 | Two accepted calls share an id only if the agent gave it to both: generated ids never repeat |
| `ToolCalls.ParseToolCalls` | crates/copenai-openai/src/tools/detect.rs:68-105 | The calls of all candidate objects in order, or the first bad object's error |
| `ToolCalls.ListIsRead` | crates/copenai-openai/src/tools/detect.rs:68-105 | A list is read exactly when every object in it names an offered tool, and then every object is read, in order, with its name, its arguments and its own id |
| `ToolCalls.AllCallsFound` | crates/copenai-server/src/tools/tool_loop.rs:58-72 | Calls that are offered, allowed, valid and carry ids are found whether they come as a list, under "tool_calls" or as one flat object, each flat or nested and with its arguments as a value or as text: the answer is accepted as exactly these, in order |
| `ToolCalls.NothingFoundExactly` | crates/copenai-server/src/tools/tool_loop.rs:58-72 | No call is found exactly when no tool is left to call, or none is demanded and the payload lists nothing that could be a call: no list with an object in it, no object with a name |
| `ToolCalls.RefusedExactly` | crates/copenai-server/src/tools/tool_loop.rs:58-72 | An answer is refused exactly when it lists an object that names no offered tool or whose arguments its tool rejects, or when a call is demanded and none listed |
| `ToolCalls.CallWithoutArguments` | crates/copenai-openai/src/tools/detect.rs:107-146 | A call without arguments has an empty object as arguments, one whose text is no JSON keeps that text, and one without an id gets the generated id |
| `ToolCalls.FirstIsFound` | crates/copenai-openai/src/tools/choice.rs:89-97 | The tool of a name is the first of that name |
| `ToolCalls.EnsureCallIds` | crates/copenai-openai/src/tools/detect.rs:148-154 | Empty ids are replaced in place, everything else is kept |
| `ToolCalls.ParseCalls` | crates/copenai-server/src/tools/tool_loop.rs:58-72 | Detection, argument check, tool choice check and id generation, in that order, with the first error |
| `ToolCalls.AcceptedCallsSound` | crates/copenai-server/src/tools/tool_loop.rs:58-72 | Every accepted call has an id, names an offered tool the choice allows, and has arguments that tool accepts; a choice that demands a call gets one |
| `ToolLoop.BatchOutputs` | crates/copenai-server/src/tools/tool_loop.rs:122-146 | A batch succeeds exactly when every call does, with the outputs in call order, and fails with the error of the first call that fails |
| `ToolLoop.ExecuteTogether` | crates/copenai-server/src/tools/tool_loop.rs:129-136 | Concurrent posting posts every call and takes the first error in call order |
| `ToolLoop.ExecuteOneByOne` | crates/copenai-server/src/tools/tool_loop.rs:137-145 | One-by-one posting gives the same result and posts exactly up to the first failing call |
| `ToolLoop.ExecuteCalls` | crates/copenai-server/src/tools/tool_loop.rs:122-146 | Parallel and one-by-one execution give the same outputs or the same first error; what is posted is everything, or everything up to the first error |
| `ToolLoop.UpToErrorExactly` | crates/copenai-server/src/tools/tool_loop.rs:137-145 | One by one, the calls posted before the last all succeeded, and if any call is left out the last one failed |
| `ToolLoop.ExecuteRound` | crates/copenai-server/src/tools/tool_loop.rs:180-206 | The answers of a round, the fallback answer, or the error that ends the loop; and exactly what is posted, also when it fails |
| `ToolLoop.CallsToOutput` | crates/copenai-server/src/tools/tool_loop.rs:74-86 | One item per call, in order, with its id, name and rendered arguments |
| `ToolLoop.RunServerLoop` | crates/copenai-server/src/tools/tool_loop.rs:149-209 | The loop returns the final text, the calls of all rounds in order plus the final message if any, and the limit flag; what is posted is that of every round begun, up to the error where one by one, also when the loop fails |
| `ToolLoop.PostedAccounting` | crates/copenai-server/src/tools/tool_loop.rs:149-209 | A loop that succeeds posts what its executed rounds post, which is all their calls unless one-by-one posting met an error the fallback hides |
| `ToolLoop.FallbackAnswersOne` | crates/copenai-server/src/tools/tool_loop.rs:180-206 | A two-call batch the webhook fails: with fallback the loop ends well and only the first call was answered |
| `ToolLoop.RunAccounting` | crates/copenai-server/src/tools/tool_loop.rs:149-209 | A run from any round: bounded, each round's calls found in its text, each text the agent's reply to the answers before, the last text's calls pending |
| `ToolLoop.AnsweredExactlyWhenNoneFailed` | crates/copenai-server/src/tools/tool_loop.rs:180-206 | A round answers each call under its own id exactly when no webhook call failed; a fallback answers only the first call |
| `ToolLoop.RoundExactly` | crates/copenai-server/src/tools/tool_loop.rs:180-206 | The answers of a round: every output under its call's id, or with fallback one answer that carries the first error, or that error |
| `ToolLoop.RoundsDetermineRun` | crates/copenai-server/src/tools/tool_loop.rs:149-209 | Rounds that are sound and chained determine the run, what it returns or fails with, and what it posts |
| `ToolLoop.RunBreaks` | crates/copenai-server/src/tools/tool_loop.rs:149-209 | A run that fails does so after sound and chained rounds, at a call that is refused, a webhook error without fallback, or an error of the agent |
| `ToolLoop.LoopAccounting` | crates/copenai-server/src/tools/tool_loop.rs:149-209 | Within max_tool_steps rounds; a normal finish leaves nothing unexecuted, a limit finish exactly the last batch; without fallback every executed call is answered under its own id |
| `ToolLoop.DemandedCallsRunToTheLimit` | crates/copenai-server/src/tools/tool_loop.rs:167-208 | Under a choice that demands a call, with tools present, a loop that succeeds always ran max_tool_steps rounds and reports the limit |
| `Permissions.PermissionStore.InsertPending` | crates/copenai-store/src/permissions.rs:23-43 | A new request is pending without a decision, with its conversation, title and options; no other changes |
| `Permissions.PermissionStore.Respond` | crates/copenai-store/src/permissions.rs:67-84 | Accepted exactly when the request is known and pending; only then it is approved or cancelled and takes the option, and no other changes |
| `Permissions.PermissionStore.Resolve` | crates/copenai-store/src/permissions.rs:86-94 | The status is overwritten unconditionally, the chosen option kept |
| `Permissions.WaitForDecision` | crates/copenai-store/src/permissions.rs:96-127 | Every earlier row was pending; an approved row gives its option, any other decided or missing row nothing; only the deadline ends the wait otherwise, with no decision |
| `Permissions.StepKeepsInv` | crates/copenai-acp/src/worker.rs:187-267 | Every step of handler, answers and deadline keeps the row, the accepted answers and the handler's decision consistent |
| `Permissions.DecidedForGood` | crates/copenai-store/src/permissions.rs:67-94 | A status never returns to pending, a decided request takes no further answer, and what the agent was told never changes |
| `Permissions.ProtocolSafety` | crates/copenai-acp/src/worker.rs:187-267 | Over every interleaving: at most one answer succeeds, the agent is told Selected(o) exactly when an uncancelled answer with o was accepted before the last poll, and then the row is approved exactly when it was told Selected |
| `Permissions.FirstAnswerCounts` | crates/copenai-store/src/permissions.rs:67-84 | The first answer that finds a request pending is accepted and written; the handler has then not decided for an option |
| `Permissions.InTimeIsHeeded` | crates/copenai-acp/src/worker.rs:187-267 | An answer accepted while the handler is about to poll is never lost: whatever happens afterwards, the agent is told that answer and the row says so |
| `Permissions.ApprovalCanBeLost` | crates/copenai-store/src/permissions.rs:67-127 | A concrete run in which an accepted approval is overwritten because it arrives after the last poll |
| `Permissions.ApprovalWithoutOption` | crates/copenai-acp/src/worker.rs:234-262 | A concrete run in which an accepted approval without an option is read in time and still cancelled |
| `Supervisor.ConversationSupervisor.Lookup` | crates/copenai-acp/src/supervisor.rs:210-225 | A handle exactly for an entry of the same model, and then that entry; an entry of another model is reported, not handed out |
| `Supervisor.ConversationSupervisor.Evict` | crates/copenai-acp/src/supervisor.rs:197-202 | Whatever entry is there is removed and its worker shut down; no other entry changes |
| `Supervisor.ConversationSupervisor.Insert` | crates/copenai-acp/src/supervisor.rs:291-298 | The entry replaces whatever is there; no other entry changes |
| `Supervisor.ConversationSupervisor.RemoveClosed` | crates/copenai-acp/src/supervisor.rs:283-289 | A watcher removes the entry under its key, whoever put it there |
| `Supervisor.ConversationSupervisor.ShutdownAll` | crates/copenai-acp/src/supervisor.rs:184-189 | All entries are removed and exactly their workers shut down |
| `Supervisor.RunsKeepInv` | crates/copenai-acp/src/supervisor.rs:196-302 | Every interleaving of lookups, evictions, starts, inserts, deliveries, closings, watcher removals and shutdown keeps entries, handles and inboxes right |
| `Supervisor.RoutingSafety` | crates/copenai-acp/src/supervisor.rs:125-148 | Every map entry and handle names a worker started for that conversation and model; every prompt is in exactly the inbox it was delivered to, once, at a worker of its own conversation and model |
| `Supervisor.LookUpReuses` | crates/copenai-acp/src/supervisor.rs:204-225 | A call uses the worker of its conversation again when it was started for the same model, evicts one of another model, and starts one only when there is none |
| `Supervisor.RemovedAreTold` | crates/copenai-acp/src/supervisor.rs:184-202 | An eviction removes one entry, a shutdown all of them, and every worker removed, and no other, has a shutdown command at the end of its inbox if its channel was open |
| `Supervisor.DeliverReaches` | crates/copenai-acp/src/supervisor.rs:125-148 | A prompt reaches the worker whose handle the call holds exactly when its channel is open |
| `Supervisor.NoWorkerForgotten` | crates/copenai-acp/src/supervisor.rs:196-302 | In every reachable state an open worker is listed, about to be, or has been told to shut down, unless a second start or a watcher of its conversation displaced it |
| `Supervisor.TwoStarts` | crates/copenai-acp/src/supervisor.rs:204-302 | Two prompts of a new conversation that come together start two workers, and the first is open, unlisted and untold |
| `Supervisor.UnlistedForGood` | crates/copenai-acp/src/supervisor.rs:184-302 | A worker that is neither listed nor about to be is never listed again and never told to shut down |
| `Supervisor.WatcherCleans` | crates/copenai-acp/src/supervisor.rs:283-289 | A watcher removes the entry of its closed worker and no other |
| `Supervisor.ListedIsWatched` | crates/copenai-acp/src/supervisor.rs:275-302 | In every reachable state a listed worker still has its watcher, which removes its entry when it closes, unless the watcher came and went before the worker was listed |
| `Supervisor.StaleEntry` | crates/copenai-acp/src/supervisor.rs:275-302 | A worker that closes at once and whose watcher is faster than the insert is listed though closed, and unwatched |
| `Supervisor.StaleRefuses` | crates/copenai-acp/src/supervisor.rs:125-148 | While such an entry stands, every later prompt of its conversation and model fails |
| `CommandLine.AcpSpawnArgv` | crates/copenai-core/src/cursor.rs:69-88 | Program, key with its flag, endpoint with its flag, every extra argument, model with its flag, and "acp" last, each at its place; an empty endpoint or model is left out |
| `CommandLine.ReadEscaped` | crates/copenai-core/src/cursor.rs:268-276 | In front of anything the shell reads a non-empty quoted argument as exactly that word, and an empty one as nothing |
| `CommandLine.SplitReadsBack` | crates/copenai-core/src/cursor.rs:259-276 | For every argument list, with quotes, backslashes and blanks, POSIX word splitting of the joined string gives exactly the non-empty arguments, in order, with nothing left to expand |
| `CommandLine.CommandStringExact` | crates/copenai-core/src/cursor.rs:259-276 | The shell hands over exactly the intended arguments if and only if the program, the key and every extra argument are non-empty |
| `History.Conversation.Truncate` | crates/copenai-openai/src/messages.rs:187-193 | Exactly the longest suffix of the history whose total text length fits the budget |
| `History.FitsExactlyWithin` | crates/copenai-openai/src/messages.rs:187-193 | A suffix fits exactly when it is no longer than the one kept |
| `History.OneLongest` | crates/copenai-openai/src/messages.rs:187-193 | The result is unique, and a larger budget never keeps less |
| `History.TrimmedForGood` | crates/copenai-openai/src/messages.rs:187-193 | Truncating again changes nothing |
| `History.SizeCounts` | crates/copenai-openai/src/messages.rs:187-193 | The length is the number of bytes of all the texts, of parts their texts with a line break between two |
| `RequestParser.ParseResponseRequest` | crates/copenai-openai/src/responses/parser.rs:18-93 | System text, history, final user content and tool outputs of every item list, unknown roles and calls skipped; a bare text is one user message |
| `RequestParser.OneMoreItem` | crates/copenai-openai/src/responses/parser.rs:37-79 | What one more item changes: a user message becomes pending and sends the one before it into the history unless that is empty, an assistant message enters at once, a bare system or developer text joins the system text after an empty line, an output is added, nothing else counts |
| `RequestParser.TextOfMessage` | crates/copenai-openai/src/responses/parser.rs:95-107 | A message says its bare text, or its text parts in order with a line break between two; other parts say nothing |
| `RequestParser.PartsPassedOn` | crates/copenai-openai/src/responses/input.rs:74-97 | Every part is passed on as what it is, a missing url, file or sound as empty and a missing sound format as "wav" |
| `RequestParser.HistoryConserves` | crates/copenai-openai/src/responses/parser.rs:37-79 | All assistant messages, and all non-empty user messages but the last user one, each role complete and in order |
| `RequestParser.ChronologicalExactly` | crates/copenai-openai/src/responses/parser.rs:59-76 | The history is in conversation order exactly when no assistant message stands between a non-empty user message and the next user message |
| `RequestParser.ChronologicalConserves` | crates/copenai-openai/src/responses/parser.rs:59-76 | The conversation order it is compared with holds the same turns of each role |
| `RequestParser.AnswerBeforeQuestion` | crates/copenai-openai/src/responses/parser.rs:59-76 | An ordinary three-message conversation comes out with the answer before the question |
| `FilePages.ListFiles` | crates/copenai-server/src/routes.rs:402-441 | As many files from behind the cursor on as the clamped limit takes, newest first unless "asc" is asked for, with the ids of the first and last; more exactly when files remain; an unknown cursor gives an empty last page |
| `FilePages.FollowPages` | crates/copenai-server/src/routes.rs:402-441 | Following the last id until there is no more terminates and shows every remaining file once, in order |
| `FilePages.ListingIsComplete` | crates/copenai-server/src/routes.rs:402-441 | For every limit and order a full listing is the stored sequence or its reverse; an unknown cursor gives an empty last page |
| `ResponsePages.List` | crates/copenai-server/src/responses/orchestrator.rs:87-108 | The newest rows before the cursor, newest first, or with "asc" the oldest after it, oldest first: as many as the clamped limit takes, none left out that comes before one shown; the ids of the first and last; more is claimed exactly when the page is full |
| `ResponsePages.RunShows` | crates/copenai-store/src/responses.rs:139-181 | However ties are ordered by each query, following the last id never shows a row twice, and shows all selected rows exactly when no page ends inside a group of equal times |
| `ResponsePages.PagingShowsAll` | crates/copenai-store/src/responses.rs:139-181 | For the whole table, every limit and both directions: paging ends, repeats nothing, and is complete exactly when no page boundary falls between two rows created at the same time; distinct times suffice |
| `ResponsePages.SelectionExists` | crates/copenai-store/src/responses.rs:139-181 | Every query on every table can be answered |
| `ResponsePages.TieSkipsARow` | crates/copenai-store/src/responses.rs:139-181 | Two responses created at the same time, one to a page: every listing misses one of them |
| `ResponsePages.TiesHappen` | crates/copenai-store/src/responses.rs:139-181 | Such a table and such a listing exist |
| `ResponsePages.RunExists` | crates/copenai-store/src/responses.rs:139-181 | For every selection there is such a run, whatever the limit and the direction |

## Left out

- HTTP routing, bearer authentication, file upload and storage, process and daemon
  control, configuration, tracing and the command-line interface: I/O and library
  calls.
- The WebSocket session: a sequential loop over operations modelled here.
- JSON parsing and rendering, JSON schema validation, the webhook and the agent are
  uninterpreted. So `extract_json_payload` is the function `payload` of the JSON
  library, and the wire codec is assumed lossless and one-line.
- Prompt wording, `parse_chat_request`, `build_prompt_plan`, sampling parameters,
  multimodal staging and model listing: no loop whose result is not plain
  from its body. A request's chat tools are taken as already parsed and filtered.
- The continuation text of the tool loop is kept as the list of call ids and
  outputs it is rendered from; the agent's reply to it is its collected text.
- ResponsesTurn.RunSync: storing the response is assumed to succeed; when it fails
  this path reports the error and the streamed one does not.
- ToolCalls.ParseCalls: some error texts are shorter than the program's; which
  check fails first is the program's.
- ToolLoop.ExecuteTogether: the order in which concurrent posts reach the webhook
  is not modelled; every post is answered independently of it.
- Responses.ResponseStore.Create: the request, response and usage columns are not
  stored, since no modelled operation reads them.
- Responses.ResponseStore.UpdateCompleted: database errors are not modelled; the
  statements are atomic updates of a map.
- ChainRuns.StepKeepsInv: a response id is assumed never to have been named before
  it was generated; a failure to persist is the step `Abandon`.
- Worker.RunPrompt: the consumer is assumed to stay; a dropped consumer loses
  events, not order. The idle drain stops after an arbitrary prefix of the queue.
- ChatStream.LiveSseStream: the 32-bit index of a tool call chunk is a natural
  number, so more than 2^32 calls in one answer are not modelled.
- Items.NewItemId: items are compared without their ids, so which kind of item gets
  which prefix is not stated.
- Streaming.DrainStream: events whose channel send fails are not modelled; the run
  without a channel only drops the emitted events.
- Permissions.ProtocolSafety: the automatic approval branch and the permission
  webhook are not modelled; the former answers without a table row.
- Supervisor.RoutingSafety: last-active times, semaphore permits, session
  resumption and workspaces are not modelled.
- History.Conversation.Truncate: a length sum beyond the machine word is not
  modelled.
- RequestParser.ParseResponseRequest: temperature, token limit and tools are passed
  through unchanged by the program and are left out.
- ResponsePages.List: the rows a query selects are a parameter constrained to be
  the selection in time order; the table is unchanged while a client pages.
  Creation times are integers that stand for the text order of the timestamps.
- FilePages.ListFiles: the purpose filter, which the program ignores, and the
  directory scan are left out; file ids are assumed non-empty and distinct for
  completeness, as names in one directory are.
