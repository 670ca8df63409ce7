/** The server-side tool loop (crates/copenai-server/src/tools/tool_loop.rs).
    The webhook and the agent are oracles that may answer differently every time:
    they are indexed by the round, and the webhook also by the position of the
    call. So are the generated call ids. */
module ToolLoop {
  import opened Wrappers
  import opened Json
  import opened ToolCalls
  import opened Sequences
  import Items

  datatype Answer = Answer(callId: string, output: string)

  datatype Oracles = Oracles(
    lib: JsonLibrary,
    newCallId: nat -> nat -> string,
    webhook: (nat, nat, FunctionCall) -> Result<string, string>,
    agent: (nat, seq<Answer>) -> Result<string, string>)

  datatype LoopConfig = LoopConfig(maxToolSteps: nat, agentFallback: bool)

  // ---- One round of calls ----

  /** The webhook's answers to a batch: all of them, or the first error. */
  function BatchResult(env: Oracles, round: nat, calls: seq<FunctionCall>): (r: Result<seq<string>, string>)
    ensures r.Success? ==> |r.value| == |calls|
  {
    if calls == [] then Success([]) else
      var front := BatchResult(env, round, calls[..|calls| - 1]);
      if front.Failure? then front else
        var last := env.webhook(round, |calls| - 1, calls[|calls| - 1]);
        if last.Failure? then Failure(last.error) else Success(front.value + [last.value])
  }

  /** Call k is the first of the batch that the webhook fails, and this is the error. */
  ghost predicate FirstError(env: Oracles, round: nat, calls: seq<FunctionCall>, k: nat, error: string) {
    && k < |calls| && env.webhook(round, k, calls[k]) == Failure(error)
    && forall j :: 0 <= j < k ==> env.webhook(round, j, calls[j]).Success?
  }

  /** It succeeds exactly when every call does, with the outputs in call order, and
      fails with the error of the first call that fails. */
  lemma {:induction false} BatchOutputs(env: Oracles, round: nat, calls: seq<FunctionCall>)
    ensures var r := BatchResult(env, round, calls);
      && (r.Success? <==> forall k :: 0 <= k < |calls| ==> env.webhook(round, k, calls[k]).Success?)
      && (r.Success? ==> forall k :: 0 <= k < |calls| ==> env.webhook(round, k, calls[k]) == Success(r.value[k]))
      && (r.Failure? ==> exists k :: 0 <= k < |calls| && FirstError(env, round, calls, k, r.error))
  {
    if calls != [] {
      var front := calls[..|calls| - 1];
      BatchOutputs(env, round, front);
      assert forall k :: 0 <= k < |front| ==> calls[k] == front[k];
      assert calls[|calls| - 1] == calls[|front|];
      var r := BatchResult(env, round, calls);
      if BatchResult(env, round, front).Failure? {
        var k :| 0 <= k < |front| && FirstError(env, round, front, k, r.error);
        assert FirstError(env, round, calls, k, r.error);
      } else if r.Failure? {
        assert FirstError(env, round, calls, |front|, r.error);
      }
    }
  }

  lemma {:induction false} NoCalls(env: Oracles, round: nat)
    ensures BatchResult(env, round, []) == Success([])
  {
  }

  lemma {:induction false} BatchStep(env: Oracles, round: nat, calls: seq<FunctionCall>, i: nat)
    requires i < |calls|
    ensures var front, last := BatchResult(env, round, calls[..i]), env.webhook(round, i, calls[i]);
      BatchResult(env, round, calls[..i + 1]) ==
      if front.Failure? then front
      else if last.Failure? then Failure(last.error) else Success(front.value + [last.value])
  {
    assert calls[..i + 1][..i] == calls[..i];
  }

  lemma {:induction false} BatchFailsEarly(env: Oracles, round: nat, calls: seq<FunctionCall>, n: nat)
    requires n <= |calls| && BatchResult(env, round, calls[..n]).Failure?
    ensures BatchResult(env, round, calls) == BatchResult(env, round, calls[..n])
    decreases |calls|
  {
    if n == |calls| {
      assert calls[..n] == calls;
    } else {
      assert calls[..|calls| - 1][..n] == calls[..n];
      BatchFailsEarly(env, round, calls[..|calls| - 1], n);
    }
  }

  /** collect() over finished futures: the first error in list order wins. */
  method CollectResults(env: Oracles, round: nat, calls: seq<FunctionCall>, results: seq<Result<string, string>>)
    returns (r: Result<seq<string>, string>)
    requires |results| == |calls|
    requires forall k :: 0 <= k < |calls| ==> results[k] == env.webhook(round, k, calls[k])
    ensures r == BatchResult(env, round, calls)
  {
    hide BatchResult;
    var outputs := [];
    var i := 0;
    assert calls[..0] == [];
    NoCalls(env, round);
    while i < |results|
      invariant 0 <= i <= |results|
      invariant BatchResult(env, round, calls[..i]) == Success(outputs)
    {
      BatchStep(env, round, calls, i);
      if results[i].Failure? {
        BatchFailsEarly(env, round, calls, i + 1);
        return Failure(results[i].error);
      }
      outputs := outputs + [results[i].value];
      i := i + 1;
    }
    assert calls[..i] == calls;
    return Success(outputs);
  }

  method ExecuteTogether(env: Oracles, round: nat, calls: seq<FunctionCall>)
    returns (r: Result<seq<string>, string>, posted: seq<FunctionCall>)
    ensures r == BatchResult(env, round, calls)
    ensures posted == calls
  {
    var results := [];
    var i := 0;
    while i < |calls|
      invariant 0 <= i <= |calls| && |results| == i
      invariant forall k :: 0 <= k < i ==> results[k] == env.webhook(round, k, calls[k])
    {
      results := results + [env.webhook(round, i, calls[i])];
      i := i + 1;
    }
    posted := calls;
    r := CollectResults(env, round, calls, results);
  }

  method ExecuteOneByOne(env: Oracles, round: nat, calls: seq<FunctionCall>)
    returns (r: Result<seq<string>, string>, posted: seq<FunctionCall>)
    ensures r == BatchResult(env, round, calls)
    ensures posted == UpToError(env, round, calls)
    ensures r.Failure? ==> posted != [] && env.webhook(round, |posted| - 1, calls[|posted| - 1]) == Failure(r.error)
  {
    hide BatchResult, UpToError;
    var outputs := [];
    posted := [];
    var i := 0;
    assert calls[..0] == [];
    NoCalls(env, round);
    while i < |calls|
      invariant 0 <= i <= |calls|
      invariant posted == calls[..i]
      invariant BatchResult(env, round, calls[..i]) == Success(outputs)
    {
      BatchStep(env, round, calls, i);
      var result := env.webhook(round, i, calls[i]);
      posted := posted + [calls[i]];
      if result.Failure? {
        BatchFailsEarly(env, round, calls, i + 1);
        StopsAt(env, round, calls, i);
        return Failure(result.error), posted;
      }
      outputs := outputs + [result.value];
      i := i + 1;
    }
    assert calls[..i] == calls;
    UpToErrorExactly(env, round, calls);
    r := Success(outputs);
  }

  /** The calls of a batch up to and with the first that the webhook fails. */
  function UpToError(env: Oracles, round: nat, calls: seq<FunctionCall>): (r: seq<FunctionCall>)
    ensures |r| <= |calls| && r == calls[..|r|]
  {
    if calls == [] then [] else
      var n := |calls| - 1;
      if BatchResult(env, round, calls[..n]).Failure? then UpToError(env, round, calls[..n]) else calls
  }

  /** What is posted of a batch: all of it at once, or one by one until an error. */
  function PostedOf(env: Oracles, round: nat, calls: seq<FunctionCall>, parallel: bool): seq<FunctionCall> {
    if parallel then calls else UpToError(env, round, calls)
  }

  /** It is the longest prefix whose calls but the last all succeed. */
  lemma {:induction false} UpToErrorExactly(env: Oracles, round: nat, calls: seq<FunctionCall>)
    ensures var n := |UpToError(env, round, calls)|;
      && (forall k :: 0 <= k < n - 1 ==> env.webhook(round, k, calls[k]).Success?)
      && (n < |calls| ==> n > 0 && env.webhook(round, n - 1, calls[n - 1]).Failure?)
      && (BatchResult(env, round, calls).Success? ==> n == |calls|)
  {
    if calls != [] {
      var front := calls[..|calls| - 1];
      UpToErrorExactly(env, round, front);
      BatchOutputs(env, round, front);
      assert forall k :: 0 <= k < |front| ==> calls[k] == front[k];
    }
  }

  lemma {:induction false} StopsAt(env: Oracles, round: nat, calls: seq<FunctionCall>, n: nat)
    requires n < |calls| && BatchResult(env, round, calls[..n]).Success?
        && BatchResult(env, round, calls[..n + 1]).Failure?
    ensures UpToError(env, round, calls) == calls[..n + 1]
    decreases |calls|
  {
    if n + 1 == |calls| {
      assert calls[..n + 1] == calls;
    } else {
      var front := calls[..|calls| - 1];
      assert front[..n] == calls[..n] && front[..n + 1] == calls[..n + 1];
      StopsAt(env, round, front, n);
      BatchFailsEarly(env, round, front, n + 1);
    }
  }

  /** Parallel and one-by-one execution give the same outputs or the same first
      error. They differ in what they post: one by one stops at the error. */
  method ExecuteCalls(env: Oracles, round: nat, calls: seq<FunctionCall>, parallel: bool)
    returns (r: Result<seq<string>, string>, posted: seq<FunctionCall>)
    ensures r == BatchResult(env, round, calls)
    ensures posted == PostedOf(env, round, calls, parallel)
  {
    UpToErrorExactly(env, round, calls);
    if parallel && |calls| > 1 {
      r, posted := ExecuteTogether(env, round, calls);
    } else {
      r, posted := ExecuteOneByOne(env, round, calls);
    }
  }

  /** Calls zipped with outputs: the shorter list decides. */
  function Answers(calls: seq<FunctionCall>, outputs: seq<string>): (r: seq<Answer>)
    ensures |r| == if |calls| < |outputs| then |calls| else |outputs|
    ensures forall k :: 0 <= k < |r| ==> r[k] == Answer(calls[k].callId, outputs[k])
  {
    var n := if |calls| < |outputs| then |calls| else |outputs|;
    seq(n, k requires 0 <= k < n => Answer(calls[k].callId, outputs[k]))
  }

  function FallbackOutput(error: string): string {
    "webhook error (agent fallback): " + error
  }

  // ---- The loop ----

  /** One executed round: the text it came from, its calls, what was answered. */
  datatype Round = Round(text: string, calls: seq<FunctionCall>, answers: seq<Answer>)

  datatype LoopOutcome = LoopOutcome(text: string, executed: seq<Round>, pending: seq<FunctionCall>, hitLimit: bool)

  function CallsAt(env: Oracles, round: nat, text: string, tools: seq<FunctionTool>, choice: ToolChoice): Calls {
    AcceptedCalls(env.lib, text, tools, choice, env.newCallId(round))
  }

  method CallsOfText(env: Oracles, round: nat, text: string, tools: seq<FunctionTool>, choice: ToolChoice)
    returns (r: Calls)
    ensures r == CallsAt(env, round, text, tools, choice)
  {
    r := ParseCalls(env.lib, text, tools, choice, env.newCallId(round));
  }

  /** The answers of one round, or the error that ends the loop. */
  function RoundAnswers(env: Oracles, config: LoopConfig, round: nat,
                        calls: seq<FunctionCall>): Result<seq<Answer>, string>
  {
    match BatchResult(env, round, calls)
    case Success(outputs) => Success(Answers(calls, outputs))
    case Failure(e) =>
      if config.agentFallback then Success(Answers(calls, [FallbackOutput(e)])) else Failure(e)
  }

  method ExecuteRound(env: Oracles, config: LoopConfig, round: nat, calls: seq<FunctionCall>, parallel: bool)
    returns (r: Result<seq<Answer>, string>, posted: seq<FunctionCall>)
    ensures r == RoundAnswers(env, config, round, calls)
    ensures posted == PostedOf(env, round, calls, parallel)
  {
    var batch;
    batch, posted := ExecuteCalls(env, round, calls, parallel);
    if batch.Success? {
      r := Success(Answers(calls, batch.value));
    } else if config.agentFallback {
      r := Success(Answers(calls, [FallbackOutput(batch.error)]));
    } else {
      r := Failure(batch.error);
    }
  }

  /** The run of the loop from a round on. */
  function RunFrom(env: Oracles, config: LoopConfig, tools: seq<FunctionTool>, choice: ToolChoice, round: nat,
                   text: string)
    : Result<LoopOutcome, string>
    requires round <= config.maxToolSteps
    decreases config.maxToolSteps - round
  {
    var calls :- CallsAt(env, round, text, tools, choice);
    if calls == [] then Success(LoopOutcome(text, [], [], false))
    else if round == config.maxToolSteps then Success(LoopOutcome(text, [], calls, true))
    else
      var answers :- RoundAnswers(env, config, round, calls);
      var next :- env.agent(round, answers);
      var rest :- RunFrom(env, config, tools, choice, round + 1, next);
      Success(rest.(executed := [Round(text, calls, answers)] + rest.executed))
  }

  /** What the loop posts from a round on, whether or not it succeeds. */
  function RunPosted(env: Oracles, config: LoopConfig, tools: seq<FunctionTool>, choice: ToolChoice, round: nat,
                     text: string, parallel: bool): seq<FunctionCall>
    requires round <= config.maxToolSteps
    decreases config.maxToolSteps - round
  {
    var calls := CallsAt(env, round, text, tools, choice);
    if calls.Failure? || calls.value == [] || round == config.maxToolSteps then []
    else
      var answers := RoundAnswers(env, config, round, calls.value);
      PostedOf(env, round, calls.value, parallel) +
      if answers.Failure? || env.agent(round, answers.value).Failure? then []
      else RunPosted(env, config, tools, choice, round + 1, env.agent(round, answers.value).value, parallel)
  }

  function CallsIn(rounds: seq<Round>): seq<FunctionCall> {
    if rounds == [] then [] else CallsIn(rounds[..|rounds| - 1]) + rounds[|rounds| - 1].calls
  }

  function CallItems(lib: JsonLibrary, calls: seq<FunctionCall>): (r: seq<Items.OutputItem>)
    ensures |r| == |calls|
    ensures forall k :: 0 <= k < |r| ==>
      r[k] == Items.FunctionCallItem("", calls[k].callId, calls[k].name, lib.render(calls[k].arguments))
  {
    seq(|calls|, k requires 0 <= k < |calls| =>
      Items.FunctionCallItem("", calls[k].callId, calls[k].name, lib.render(calls[k].arguments)))
  }

  /** What a finished loop reports: the calls of all rounds in order, those not
      executed last, then the final message if there is one. */
  function ReportedItems(lib: JsonLibrary, outcome: LoopOutcome): seq<Items.OutputItem> {
    CallItems(lib, CallsIn(outcome.executed) + outcome.pending)
    + (if !outcome.hitLimit && outcome.text != "" then [Items.MessageText(outcome.text, "")] else [])
  }

  method CallsToOutput(lib: JsonLibrary, calls: seq<FunctionCall>) returns (items: seq<Items.OutputItem>)
    ensures Items.AnonymousAll(items) == CallItems(lib, calls)
  {
    items := [];
    while |items| < |calls|
      invariant |items| <= |calls|
      invariant Items.AnonymousAll(items) == CallItems(lib, calls)[..|items|]
      decreases |calls| - |items|
    {
      var c := calls[|items|];
      var id := Items.NewItemId("fc");
      items := items + [Items.FunctionCallItem(id, c.callId, c.name, lib.render(c.arguments))];
    }
  }

  function Prepend(rounds: seq<Round>, r: Result<LoopOutcome, string>): Result<LoopOutcome, string> {
    match r
    case Failure(e) => Failure(e)
    case Success(o) => Success(o.(executed := rounds + o.executed))
  }

  lemma NothingYet(lib: JsonLibrary, r: Result<LoopOutcome, string>)
    ensures Prepend([], r) == r
    ensures CallsIn([]) == []
    ensures Items.AnonymousAll([]) == CallItems(lib, [])
  {
    if r.Success? {
      assert [] + r.value.executed == r.value.executed;
    }
  }

  lemma PrependSnoc(rounds: seq<Round>, last: Round, r: Result<LoopOutcome, string>)
    ensures Prepend(rounds, Prepend([last], r)) == Prepend(rounds + [last], r)
  {
    if r.Success? {
      assert rounds + ([last] + r.value.executed) == (rounds + [last]) + r.value.executed;
    }
  }

  lemma ItemsAppend(a: seq<Items.OutputItem>, b: seq<Items.OutputItem>)
    ensures Items.AnonymousAll(a + b) == Items.AnonymousAll(a) + Items.AnonymousAll(b)
  {
  }

  lemma CallItemsAppend(lib: JsonLibrary, a: seq<FunctionCall>, b: seq<FunctionCall>)
    ensures CallItems(lib, a + b) == CallItems(lib, a) + CallItems(lib, b)
  {
  }

  /** What the outcome looks like when the loop stops in its current round. */
  lemma {:induction false} RunStops(env: Oracles, config: LoopConfig, tools: seq<FunctionTool>, choice: ToolChoice,
                                    round: nat, text: string, rounds: seq<Round>)
    requires round <= config.maxToolSteps
    requires var calls := CallsAt(env, round, text, tools, choice);
             calls.Success? ==> calls.value == [] || round == config.maxToolSteps
    ensures var calls := CallsAt(env, round, text, tools, choice);
      Prepend(rounds, RunFrom(env, config, tools, choice, round, text)) ==
      if calls.Failure? then Failure(calls.error)
      else Success(LoopOutcome(text, rounds, calls.value, calls.value != []))
  {
    hide AcceptedCalls, CallsAt, BatchResult, RoundAnswers;
    assert rounds + [] == rounds;
  }

  lemma RunContinues(env: Oracles, config: LoopConfig, tools: seq<FunctionTool>, choice: ToolChoice, round: nat,
                     text: string, rounds: seq<Round>)
    requires round < config.maxToolSteps
    requires CallsAt(env, round, text, tools, choice).Success? && CallsAt(env, round, text, tools, choice).value != []
    ensures var calls := CallsAt(env, round, text, tools, choice).value;
      var answers := RoundAnswers(env, config, round, calls);
      var run := Prepend(rounds, RunFrom(env, config, tools, choice, round, text));
      && (answers.Failure? ==> run == Failure(answers.error))
      && (answers.Success? ==>
            var next := env.agent(round, answers.value);
            && (next.Failure? ==> run == Failure(next.error))
            && (next.Success? ==>
                  run == Prepend(rounds + [Round(text, calls, answers.value)],
                                 RunFrom(env, config, tools, choice, round + 1, next.value))))
  {
    hide AcceptedCalls, CallsAt, BatchResult, RoundAnswers;
    var calls := CallsAt(env, round, text, tools, choice).value;
    var answers := RoundAnswers(env, config, round, calls);
    if answers.Success? && env.agent(round, answers.value).Success? {
      PrependSnoc(rounds, Round(text, calls, answers.value),
                  RunFrom(env, config, tools, choice, round + 1, env.agent(round, answers.value).value));
    }
  }

  lemma {:induction false} CallsInSnoc(rounds: seq<Round>, last: Round)
    ensures CallsIn(rounds + [last]) == CallsIn(rounds) + last.calls
  {
    assert (rounds + [last])[..|rounds|] == rounds;
  }

  /** The loop's outputs so far plus one more batch. */
  method AppendCalls(lib: JsonLibrary, outputs: seq<Items.OutputItem>, calls: seq<FunctionCall>,
                     ghost before: seq<FunctionCall>)
    returns (outputs': seq<Items.OutputItem>)
    requires Items.AnonymousAll(outputs) == CallItems(lib, before)
    ensures Items.AnonymousAll(outputs') == CallItems(lib, before + calls)
  {
    var items := CallsToOutput(lib, calls);
    ItemsAppend(outputs, items);
    CallItemsAppend(lib, before, calls);
    outputs' := outputs + items;
  }

  method AppendMessage(outputs: seq<Items.OutputItem>, text: string) returns (outputs': seq<Items.OutputItem>)
    ensures Items.AnonymousAll(outputs') ==
            Items.AnonymousAll(outputs) + (if text != "" then [Items.MessageText(text, "")] else [])
  {
    outputs' := outputs;
    if text != "" {
      var id := Items.NewItemId("msg");
      ItemsAppend(outputs, [Items.MessageText(text, id)]);
      outputs' := outputs + [Items.MessageText(text, id)];
    }
  }

  lemma PostedNext(env: Oracles, config: LoopConfig, tools: seq<FunctionTool>, choice: ToolChoice, round: nat,
                   text: string, parallel: bool)
    requires round <= config.maxToolSteps
    ensures var calls := CallsAt(env, round, text, tools, choice);
      var posted := RunPosted(env, config, tools, choice, round, text, parallel);
      if calls.Failure? || calls.value == [] || round == config.maxToolSteps then posted == []
      else
        var answers := RoundAnswers(env, config, round, calls.value);
        posted == PostedOf(env, round, calls.value, parallel) +
          if answers.Failure? || env.agent(round, answers.value).Failure? then []
          else RunPosted(env, config, tools, choice, round + 1, env.agent(round, answers.value).value, parallel)
  {
  }

  method RunServerLoop(env: Oracles, config: LoopConfig, initialText: string, tools: seq<FunctionTool>,
                       choice: ToolChoice, parallel: bool)
    returns (r: Result<(string, seq<Items.OutputItem>, bool), string>, posted: seq<FunctionCall>)
    ensures var run := RunFrom(env, config, tools, choice, 0, initialText);
      && (run.Failure? ==> r == Failure(run.error))
      && (run.Success? ==>
            && r.Success?
            && r.value.0 == run.value.text
            && Items.AnonymousAll(r.value.1) == ReportedItems(env.lib, run.value)
            && r.value.2 == run.value.hitLimit)
    ensures posted == RunPosted(env, config, tools, choice, 0, initialText, parallel)
  {
    hide AcceptedCalls, PostedOf, RunPosted, CallsAt, BatchResult, RoundAnswers, RunFrom, Prepend, CallsIn;
    hide Items.AnonymousAll, CallItems, Answers;
    var allOutputs: seq<Items.OutputItem> := [];
    var text := initialText;
    var steps := 0;
    posted := [];
    ghost var rounds: seq<Round> := [];
    NothingYet(env.lib, RunFrom(env, config, tools, choice, 0, initialText));
    while true
      invariant 0 <= steps <= config.maxToolSteps
      invariant RunFrom(env, config, tools, choice, 0, initialText)
             == Prepend(rounds, RunFrom(env, config, tools, choice, steps, text))
      invariant Items.AnonymousAll(allOutputs) == CallItems(env.lib, CallsIn(rounds))
      invariant RunPosted(env, config, tools, choice, 0, initialText, parallel)
             == posted + RunPosted(env, config, tools, choice, steps, text, parallel)
      decreases config.maxToolSteps - steps
    {
      PostedNext(env, config, tools, choice, steps, text, parallel);
      var parsed := CallsOfText(env, steps, text, tools, choice);
      if parsed.Failure? {
        RunStops(env, config, tools, choice, steps, text, rounds);
        return Failure(parsed.error), posted;
      }
      var calls := parsed.value;
      if calls == [] {
        RunStops(env, config, tools, choice, steps, text, rounds);
        assert CallsIn(rounds) + [] == CallsIn(rounds);
        allOutputs := AppendMessage(allOutputs, text);
        return Success((text, allOutputs, false)), posted;
      }
      allOutputs := AppendCalls(env.lib, allOutputs, calls, CallsIn(rounds));
      if steps >= config.maxToolSteps {
        RunStops(env, config, tools, choice, steps, text, rounds);
        return Success((text, allOutputs, true)), posted;
      }
      RunContinues(env, config, tools, choice, steps, text, rounds);
      ghost var before := posted;
      var answered, sent := ExecuteRound(env, config, steps, calls, parallel);
      posted := posted + sent;
      if answered.Failure? {
        return Failure(answered.error), posted;
      }
      var next := env.agent(steps, answered.value);
      if next.Failure? {
        return Failure(next.error), posted;
      }
      assert before + (sent + RunPosted(env, config, tools, choice, steps + 1, next.value, parallel))
          == posted + RunPosted(env, config, tools, choice, steps + 1, next.value, parallel);
      ghost var last := Round(text, calls, answered.value);
      CallsInSnoc(rounds, last);
      rounds := rounds + [last];
      steps := steps + 1;
      text := next.value;
    }
  }

  /** How a run starts: without calls it is over, else they are reported first. */
  lemma {:induction false} FirstRound(env: Oracles, config: LoopConfig, tools: seq<FunctionTool>, choice: ToolChoice,
                                      text: string)
    requires RunFrom(env, config, tools, choice, 0, text).Success?
    ensures var o, calls := RunFrom(env, config, tools, choice, 0, text).value, CallsAt(env, 0, text, tools, choice);
      && calls.Success?
      && (calls.value == [] ==> o == LoopOutcome(text, [], [], false))
      && (calls.value != [] ==> CallsIn(o.executed) + o.pending != [])
  {
    hide AcceptedCalls, CallsAt, RoundAnswers;
    var o := RunFrom(env, config, tools, choice, 0, text).value;
    if o.executed != [] {
      FirstOfRounds(o.executed);
    }
  }

  lemma {:induction false} FirstOfRounds(rounds: seq<Round>)
    requires rounds != [] && rounds[0].calls != []
    ensures CallsIn(rounds) != []
  {
    if |rounds| > 1 {
      FirstOfRounds(rounds[..|rounds| - 1]);
    }
  }

  // ---- Accounting ----

  /** A round is consistent with its place in a run: its calls are what was found
      in its text, and its answers are what the webhook gave them. */
  ghost predicate RoundSound(env: Oracles, config: LoopConfig, tools: seq<FunctionTool>, choice: ToolChoice, at: nat,
                             round: Round)
  {
    && round.calls != []
    && CallsAt(env, at, round.text, tools, choice) == Success(round.calls)
    && RoundAnswers(env, config, at, round.calls) == Success(round.answers)
  }

  /** Every call of the round has its own webhook output, under its own id. */
  ghost predicate FullyAnswered(env: Oracles, at: nat, round: Round) {
    && |round.answers| == |round.calls|
    && forall k :: 0 <= k < |round.calls| ==>
         && env.webhook(at, k, round.calls[k]).Success?
         && round.answers[k] == Answer(round.calls[k].callId, env.webhook(at, k, round.calls[k]).value)
  }

  ghost predicate RoundsSound(env: Oracles, config: LoopConfig, tools: seq<FunctionTool>, choice: ToolChoice,
                              from: nat, rounds: seq<Round>)
    decreases |rounds|
  {
    rounds == [] ||
    (RoundSound(env, config, tools, choice, from, rounds[0])
     && RoundsSound(env, config, tools, choice, from + 1, rounds[1..]))
  }

  /** Each text but the first is the agent's reply to the answers before it. */
  ghost predicate Chained(env: Oracles, from: nat, text: string, rounds: seq<Round>, last: string)
    decreases |rounds|
  {
    if rounds == [] then last == text
    else
      var next := env.agent(from, rounds[0].answers);
      rounds[0].text == text && next.Success? && Chained(env, from + 1, next.value, rounds[1..], last)
  }

  /** The run of a loop in full: bounded, every round consistent, every text
      accounted for, and the calls of the last text left pending. */
  lemma {:induction false} RunAccounting(env: Oracles, config: LoopConfig, tools: seq<FunctionTool>,
                                         choice: ToolChoice, from: nat, text: string)
    requires from <= config.maxToolSteps
    requires RunFrom(env, config, tools, choice, from, text).Success?
    ensures var o := RunFrom(env, config, tools, choice, from, text).value;
      && from + |o.executed| <= config.maxToolSteps
      && (o.hitLimit <==> o.pending != [])
      && (o.hitLimit ==> from + |o.executed| == config.maxToolSteps)
      && CallsAt(env, from + |o.executed|, o.text, tools, choice) == Success(o.pending)
      && RoundsSound(env, config, tools, choice, from, o.executed)
      && Chained(env, from, text, o.executed, o.text)
    decreases config.maxToolSteps - from
  {
    hide AcceptedCalls, CallsAt, BatchResult, Answers, RoundAnswers;
    var calls := CallsAt(env, from, text, tools, choice).value;
    if calls != [] && from < config.maxToolSteps {
      var answers := RoundAnswers(env, config, from, calls).value;
      var next := env.agent(from, answers).value;
      RunAccounting(env, config, tools, choice, from + 1, next);
      var rest := RunFrom(env, config, tools, choice, from + 1, next).value;
      var o := RunFrom(env, config, tools, choice, from, text).value;
      var round := Round(text, calls, answers);
      assert o == rest.(executed := [round] + rest.executed);
      assert o.executed[1..] == rest.executed;
      assert from + 1 + |rest.executed| == from + |o.executed|;
    }
  }

  /** What a run that succeeds posts: of each executed round all calls, unless
      one-by-one posting met an error that the fallback hides. */
  function PostedIn(env: Oracles, from: nat, rounds: seq<Round>, parallel: bool): seq<FunctionCall>
    decreases |rounds|
  {
    if rounds == [] then []
    else PostedOf(env, from, rounds[0].calls, parallel) + PostedIn(env, from + 1, rounds[1..], parallel)
  }

  lemma {:induction false} PostedAccounting(env: Oracles, config: LoopConfig, tools: seq<FunctionTool>,
                                            choice: ToolChoice, from: nat, text: string, parallel: bool)
    requires from <= config.maxToolSteps
    requires RunFrom(env, config, tools, choice, from, text).Success?
    ensures var o := RunFrom(env, config, tools, choice, from, text).value;
      && RunPosted(env, config, tools, choice, from, text, parallel) == PostedIn(env, from, o.executed, parallel)
      && (parallel || !config.agentFallback ==> PostedIn(env, from, o.executed, parallel) == CallsIn(o.executed))
    decreases config.maxToolSteps - from
  {
    hide AcceptedCalls, CallsAt, RoundAnswers, PostedOf;
    var calls := CallsAt(env, from, text, tools, choice).value;
    if calls != [] && from < config.maxToolSteps {
      var answers := RoundAnswers(env, config, from, calls).value;
      var next := env.agent(from, answers).value;
      PostedAccounting(env, config, tools, choice, from + 1, next, parallel);
      if parallel || !config.agentFallback {
        AllPosted(env, config, from, calls, parallel);
      }
      var rest := RunFrom(env, config, tools, choice, from + 1, next).value.executed;
      var first := Round(text, calls, answers);
      var o := RunFrom(env, config, tools, choice, from, text).value;
      assert o.executed == [first] + rest && o.executed[1..] == rest;
      assert RunPosted(env, config, tools, choice, from, text, parallel)
          == PostedOf(env, from, calls, parallel) + RunPosted(env, config, tools, choice, from + 1, next, parallel);
      hide RunFrom, RunPosted, CallsIn;
      CallsInCons(first, rest);
    }
  }

  lemma AllPosted(env: Oracles, config: LoopConfig, round: nat, calls: seq<FunctionCall>, parallel: bool)
    requires RoundAnswers(env, config, round, calls).Success? && (parallel || !config.agentFallback)
    ensures PostedOf(env, round, calls, parallel) == calls
  {
    hide Answers;
    UpToErrorExactly(env, round, calls);
  }

  lemma {:induction false} CallsInCons(first: Round, rest: seq<Round>)
    ensures CallsIn([first] + rest) == first.calls + CallsIn(rest)
  {
    if rest == [] {
      assert [first] + rest == [first] && [first][..0] == [];
    } else {
      var front := rest[..|rest| - 1];
      assert ([first] + rest)[..|rest|] == [first] + front;
      CallsInCons(first, front);
    }
  }

  lemma {:induction false} RoundsSoundAt(env: Oracles, config: LoopConfig, tools: seq<FunctionTool>,
                                         choice: ToolChoice, from: nat, rounds: seq<Round>, k: nat)
    requires RoundsSound(env, config, tools, choice, from, rounds) && k < |rounds|
    ensures RoundSound(env, config, tools, choice, from + k, rounds[k])
    decreases k
  {
    hide RoundSound;
    if k > 0 {
      RoundsSoundAt(env, config, tools, choice, from + 1, rounds[1..], k - 1);
      assert from + 1 + (k - 1) == from + k;
    }
  }

  /** A sound round answers every call exactly when the webhook failed none of
      them; after a fallback only the first call hears anything. */
  lemma {:induction false} AnsweredExactlyWhenNoneFailed(env: Oracles, config: LoopConfig, tools: seq<FunctionTool>,
                                                         choice: ToolChoice, at: nat, round: Round)
    requires RoundSound(env, config, tools, choice, at, round)
    ensures FullyAnswered(env, at, round) <==> BatchResult(env, at, round.calls).Success?
    ensures BatchResult(env, at, round.calls).Failure? ==>
      round.answers == [Answer(round.calls[0].callId, FallbackOutput(BatchResult(env, at, round.calls).error))]
    ensures !config.agentFallback ==> FullyAnswered(env, at, round)
  {
    hide AcceptedCalls, BatchResult;
    BatchOutputs(env, at, round.calls);
  }

  /** The answers of a round, and its error. */
  lemma RoundExactly(env: Oracles, config: LoopConfig, at: nat, calls: seq<FunctionCall>)
    requires calls != []
    ensures var r := RoundAnswers(env, config, at, calls);
      && (r.Success? && (forall k :: 0 <= k < |calls| ==> env.webhook(at, k, calls[k]).Success?) ==>
            FullyAnswered(env, at, Round("", calls, r.value)))
      && (r.Failure? ==>
            !config.agentFallback && exists k :: 0 <= k < |calls| && FirstError(env, at, calls, k, r.error))
      && forall k, e :: 0 <= k < |calls| && FirstError(env, at, calls, k, e) ==>
           r == if config.agentFallback
                then Success([Answer(calls[0].callId, "webhook error (agent fallback): " + e)]) else Failure(e)
  {
    hide BatchResult;
    BatchOutputs(env, at, calls);
    forall k, e | 0 <= k < |calls| && FirstError(env, at, calls, k, e) ensures BatchResult(env, at, calls) == Failure(e)
    {
      var r := BatchResult(env, at, calls);
      var first :| 0 <= first < |calls| && FirstError(env, at, calls, first, r.error);
      assert !(first < k) && !(k < first);
    }
    assert forall x :: Answers(calls, [x]) == [Answer(calls[0].callId, x)];
  }

  /** The loop breaks at this round with this error: the text holds a call that is
      refused, or the webhook fails without a fallback, or the agent does. */
  ghost predicate Breaks(env: Oracles, config: LoopConfig, tools: seq<FunctionTool>, choice: ToolChoice, at: nat,
                         text: string, error: string)
  {
    var calls := CallsAt(env, at, text, tools, choice);
    || calls == Failure(error)
    || (calls.Success? && calls.value != [] && at < config.maxToolSteps
        && var answers := RoundAnswers(env, config, at, calls.value);
           answers == Failure(error) || (answers.Success? && env.agent(at, answers.value) == Failure(error)))
  }

  /** What is posted of the calls of a text at which the loop ends. */
  function LastPosted(env: Oracles, config: LoopConfig, tools: seq<FunctionTool>, choice: ToolChoice, at: nat,
                      text: string, parallel: bool): seq<FunctionCall>
  {
    var calls := CallsAt(env, at, text, tools, choice);
    if calls.Failure? || at >= config.maxToolSteps then [] else PostedOf(env, at, calls.value, parallel)
  }

  /** Rounds that are sound and chained determine the run: it ends well at a text
      without calls or at the limit, and fails with the error at which it breaks. What
      it posts is what its rounds post, and then what the last text lets it post. */
  lemma {:induction false} RoundsDetermineRun(env: Oracles, config: LoopConfig, tools: seq<FunctionTool>,
                                              choice: ToolChoice, text: string, rounds: seq<Round>, last: string,
                                              parallel: bool)
    requires |rounds| <= config.maxToolSteps
    requires RoundsSound(env, config, tools, choice, 0, rounds) && Chained(env, 0, text, rounds, last)
    ensures var run := RunFrom(env, config, tools, choice, 0, text);
      var posted := RunPosted(env, config, tools, choice, 0, text, parallel);
      var calls := CallsAt(env, |rounds|, last, tools, choice);
      && (calls == Success([]) ==>
            run == Success(LoopOutcome(last, rounds, [], false)) && posted == PostedIn(env, 0, rounds, parallel))
      && (calls.Success? && calls.value != [] && |rounds| == config.maxToolSteps ==>
            && run == Success(LoopOutcome(last, rounds, calls.value, true))
            && posted == PostedIn(env, 0, rounds, parallel))
      && (forall e :: Breaks(env, config, tools, choice, |rounds|, last, e) ==>
            && run == Failure(e)
            && posted == PostedIn(env, 0, rounds, parallel)
                         + LastPosted(env, config, tools, choice, |rounds|, last, parallel))
  {
    hide *;
    RoundsUnroll(env, config, tools, choice, 0, text, rounds, last, parallel);
    LastTextDecides(env, config, tools, choice, |rounds|, last, parallel);
    assert rounds + [] == rounds;
    assert PostedIn(env, 0, rounds, parallel) + [] == PostedIn(env, 0, rounds, parallel);
    Prepended(rounds, last, CallsAt(env, |rounds|, last, tools, choice));
  }

  lemma Prepended(rounds: seq<Round>, last: string, calls: Calls)
    ensures forall e :: Prepend(rounds, Failure(e)) == Failure(e)
    ensures calls.Success? ==> forall limit ::
      Prepend(rounds, Success(LoopOutcome(last, [], calls.value, limit)))
      == Success(LoopOutcome(last, rounds, calls.value, limit))
  {
    assert rounds + [] == rounds;
  }

  lemma {:induction false} LastTextDecides(env: Oracles, config: LoopConfig, tools: seq<FunctionTool>,
                                           choice: ToolChoice, at: nat, last: string, parallel: bool)
    requires at <= config.maxToolSteps
    ensures var run := RunFrom(env, config, tools, choice, at, last);
      var posted := RunPosted(env, config, tools, choice, at, last, parallel);
      var calls := CallsAt(env, at, last, tools, choice);
      && (calls == Success([]) ==> run == Success(LoopOutcome(last, [], calls.value, false)) && posted == [])
      && (calls.Success? && calls.value != [] && at == config.maxToolSteps ==>
            run == Success(LoopOutcome(last, [], calls.value, true)) && posted == [])
      && (forall e :: Breaks(env, config, tools, choice, at, last, e) ==>
            run == Failure(e) && posted == LastPosted(env, config, tools, choice, at, last, parallel))
  {
    NothingPosted(env, at, parallel);
    hide AcceptedCalls, CallsAt, BatchResult, Answers, RoundAnswers, PostedOf;
  }

  lemma {:induction false} RoundsUnroll(env: Oracles, config: LoopConfig, tools: seq<FunctionTool>,
                                        choice: ToolChoice, from: nat, text: string, rounds: seq<Round>,
                                        last: string, parallel: bool)
    requires from + |rounds| <= config.maxToolSteps
    requires RoundsSound(env, config, tools, choice, from, rounds) && Chained(env, from, text, rounds, last)
    ensures RunFrom(env, config, tools, choice, from, text)
         == Prepend(rounds, RunFrom(env, config, tools, choice, from + |rounds|, last))
    ensures RunPosted(env, config, tools, choice, from, text, parallel)
         == PostedIn(env, from, rounds, parallel)
            + RunPosted(env, config, tools, choice, from + |rounds|, last, parallel)
    decreases |rounds|
  {
    hide *;
    if rounds == [] {
      NothingYet(env.lib, RunFrom(env, config, tools, choice, from, last));
      NoRounds(env, from, text, last, parallel);
      Regrouped([], [], RunPosted(env, config, tools, choice, from, last, parallel));
    } else {
      FirstOf(env, config, tools, choice, from, text, rounds, last, parallel);
      var next, first, rest := env.agent(from, rounds[0].answers).value, rounds[0], rounds[1..];
      OneRoundRuns(env, config, tools, choice, from, first, parallel);
      RoundsUnroll(env, config, tools, choice, from + 1, next, rest, last, parallel);
      assert from + 1 + |rest| == from + |rounds| && [first] + rest == rounds;
      PrependTwice(first, rest, RunFrom(env, config, tools, choice, from + |rounds|, last));
      Regrouped(PostedOf(env, from, first.calls, parallel), PostedIn(env, from + 1, rest, parallel),
                RunPosted(env, config, tools, choice, from + |rounds|, last, parallel));
    }
  }

  lemma {:induction false} NoRounds(env: Oracles, from: nat, text: string, last: string, parallel: bool)
    ensures Chained(env, from, text, [], last) ==> last == text
    ensures PostedIn(env, from, [], parallel) == []
  {
  }

  lemma {:induction false} FirstOf(env: Oracles, config: LoopConfig, tools: seq<FunctionTool>, choice: ToolChoice,
                                   from: nat, text: string, rounds: seq<Round>, last: string, parallel: bool)
    requires rounds != []
    requires RoundsSound(env, config, tools, choice, from, rounds) && Chained(env, from, text, rounds, last)
    ensures rounds[0].text == text && RoundSound(env, config, tools, choice, from, rounds[0])
    ensures var next := env.agent(from, rounds[0].answers);
      && next.Success? && Chained(env, from + 1, next.value, rounds[1..], last)
      && RoundsSound(env, config, tools, choice, from + 1, rounds[1..])
    ensures PostedIn(env, from, rounds, parallel)
         == PostedOf(env, from, rounds[0].calls, parallel) + PostedIn(env, from + 1, rounds[1..], parallel)
  {
    hide RoundSound, PostedOf;
  }

  lemma Regrouped(a: seq<FunctionCall>, b: seq<FunctionCall>, c: seq<FunctionCall>)
    ensures a + (b + c) == a + b + c
    ensures [] + c == c
  {
  }

  lemma {:induction false} OneRoundRuns(env: Oracles, config: LoopConfig, tools: seq<FunctionTool>,
                                        choice: ToolChoice, at: nat, round: Round, parallel: bool)
    requires at < config.maxToolSteps && RoundSound(env, config, tools, choice, at, round)
    requires env.agent(at, round.answers).Success?
    ensures var next := env.agent(at, round.answers).value;
      && RunFrom(env, config, tools, choice, at, round.text)
         == Prepend([round], RunFrom(env, config, tools, choice, at + 1, next))
      && RunPosted(env, config, tools, choice, at, round.text, parallel)
         == PostedOf(env, at, round.calls, parallel)
            + RunPosted(env, config, tools, choice, at + 1, next, parallel)
  {
    hide AcceptedCalls, CallsAt, BatchResult, Answers, RoundAnswers, PostedOf, RunPosted, RunFrom, Prepend;
    PostedNext(env, config, tools, choice, at, round.text, parallel);
    RunContinues(env, config, tools, choice, at, round.text, []);
    NothingYet(env.lib, RunFrom(env, config, tools, choice, at, round.text));
    assert [] + [round] == [round];
  }

  lemma PrependTwice(first: Round, rest: seq<Round>, r: Result<LoopOutcome, string>)
    ensures Prepend([first], Prepend(rest, r)) == Prepend([first] + rest, r)
  {
    if r.Success? {
      assert [first] + (rest + r.value.executed) == ([first] + rest) + r.value.executed;
    }
  }

  lemma NothingPosted(env: Oracles, at: nat, parallel: bool)
    ensures PostedOf(env, at, [], parallel) == []
  {
  }

  /** Every failing run breaks after some sound and chained rounds. */
  lemma {:induction false} RunBreaks(env: Oracles, config: LoopConfig, tools: seq<FunctionTool>, choice: ToolChoice,
                                     from: nat, text: string)
    returns (rounds: seq<Round>, last: string)
    requires from <= config.maxToolSteps
    requires RunFrom(env, config, tools, choice, from, text).Failure?
    ensures from + |rounds| <= config.maxToolSteps
    ensures RoundsSound(env, config, tools, choice, from, rounds) && Chained(env, from, text, rounds, last)
    ensures Breaks(env, config, tools, choice, from + |rounds|, last,
                   RunFrom(env, config, tools, choice, from, text).error)
    decreases config.maxToolSteps - from
  {
    hide AcceptedCalls, CallsAt, BatchResult, Answers, RoundAnswers;
    rounds, last := [], text;
    var calls := CallsAt(env, from, text, tools, choice);
    if calls.Success? && calls.value != [] && from < config.maxToolSteps {
      var answers := RoundAnswers(env, config, from, calls.value);
      if answers.Success? && env.agent(from, answers.value).Success? {
        var next := env.agent(from, answers.value).value;
        var later;
        later, last := RunBreaks(env, config, tools, choice, from + 1, next);
        rounds := [Round(text, calls.value, answers.value)] + later;
        assert rounds[1..] == later;
        assert from + 1 + |later| == from + |rounds|;
        hide Breaks;
      }
    }
  }

  /** Within max_tool_steps rounds; a normal finish without fallback has every
      reported call executed and answered under its own id, and a limit finish
      leaves exactly the last batch unexecuted. */
  lemma {:induction false} LoopAccounting(env: Oracles, config: LoopConfig, tools: seq<FunctionTool>,
                                          choice: ToolChoice, text: string)
    requires RunFrom(env, config, tools, choice, 0, text).Success?
    ensures var o := RunFrom(env, config, tools, choice, 0, text).value;
      && |o.executed| <= config.maxToolSteps
      && (!o.hitLimit ==> o.pending == [])
      && (o.hitLimit ==> |o.executed| == config.maxToolSteps && o.pending != [])
      && (!config.agentFallback ==>
            forall k :: 0 <= k < |o.executed| ==> FullyAnswered(env, k, o.executed[k]))
  {
    hide AcceptedCalls, CallsAt, BatchResult, Answers, RoundAnswers;
    RunAccounting(env, config, tools, choice, 0, text);
    var o := RunFrom(env, config, tools, choice, 0, text).value;
    if !config.agentFallback {
      forall k | 0 <= k < |o.executed| ensures FullyAnswered(env, k, o.executed[k]) {
        RoundsSoundAt(env, config, tools, choice, 0, o.executed, k);
        assert 0 + k == k;
        AnsweredExactlyWhenNoneFailed(env, config, tools, choice, k, o.executed[k]);
      }
    }
  }

  /** A choice that demands a call is only ever satisfied by calls, so a loop that
      succeeds under it always ran all its rounds and reports the limit. */
  lemma {:induction false} DemandedCallsRunToTheLimit(env: Oracles, config: LoopConfig, tools: seq<FunctionTool>,
                                                      choice: ToolChoice, text: string)
    requires RequiresCall(choice) && FilterTools(tools, choice) != []
    requires RunFrom(env, config, tools, choice, 0, text).Success?
    ensures var o := RunFrom(env, config, tools, choice, 0, text).value;
      o.hitLimit && |o.executed| == config.maxToolSteps
  {
    hide AcceptedCalls, BatchResult, RoundAnswers, RunFrom, RoundsSound, Chained;
    RunAccounting(env, config, tools, choice, 0, text);
    var o := RunFrom(env, config, tools, choice, 0, text).value;
    DemandedCallsExist(env.lib, o.text, tools, choice, env.newCallId(|o.executed|));
  }

  // ---- A batch the webhook fails ----

  function TwoCalls(name: string): seq<Json> {
    [Object(map["name" := Str(name), "call_id" := Str("1")]), Object(map["name" := Str(name), "call_id" := Str("2")])]
  }

  lemma TwoCallsFound(lib: JsonLibrary, text: string, name: string, newId: nat -> string)
    requires lib.payload(text) == Array(TwoCalls(name))
    ensures AcceptedCalls(lib, text, [FunctionTool(name, None)], Auto, newId)
         == Success([FunctionCall("1", name, Object(map[])), FunctionCall("2", name, Object(map[]))])
  {
    var tools, items := [FunctionTool(name, None)], TwoCalls(name);
    var one, two := FunctionCall("1", name, Object(map[])), FunctionCall("2", name, Object(map[]));
    assert tools[0] in tools;
    OneCallRead(lib, "1", name, newId(0));
    OneCallRead(lib, "2", name, newId(1));
    assert items[..1] == [items[0]] && items[..1][..0] == [];
    assert CallsOf(lib, [], tools, newId) == Success([]);
    assert [] + [one] == [one] && [one] + [two] == [one, two];
    assert CallsOf(lib, items[..1], tools, newId) == Success([one]);
    assert items[..|items| - 1] == items[..1] && items[|items| - 1].Object?;
    assert SingleCall(lib, items[|items| - 1], tools, newId(|items| - 1)) == Success(two);
    assert CallsOf(lib, items, tools, newId) == Success([one, two]);
    assert FindTool(tools, name) == Some(tools[0]);
    assert WithIds([one, two], newId, |items|) == [one, two];
  }

  lemma OneCallRead(lib: JsonLibrary, id: string, name: string, generated: string)
    ensures SingleCall(lib, Object(map["name" := Str(name), "call_id" := Str(id)]), [FunctionTool(name, None)],
                       generated)
         == Success(FunctionCall(id, name, Object(map[])))
  {
    var tools := [FunctionTool(name, None)];
    assert tools[0] in tools;
    assert Offered(tools, name);
  }

  /** With agent fallback a failed batch of two still ends well, but only the first
      call was answered. */
  lemma {:induction false} FallbackAnswersOne(env: Oracles, config: LoopConfig, name: string, text: string,
                                              last: string, error: string)
    requires config.agentFallback && config.maxToolSteps >= 1
    requires env.lib.payload(text) == Array(TwoCalls(name)) && env.lib.payload(last) == Null
    requires forall k: nat, call: FunctionCall :: env.webhook(0, k, call) == Failure(error)
    requires forall answers: seq<Answer> :: env.agent(0, answers) == Success(last)
    ensures var run := RunFrom(env, config, [FunctionTool(name, None)], Auto, 0, text);
      && run.Success? && !run.value.hitLimit && run.value.text == last && |run.value.executed| == 1
      && |run.value.executed[0].calls| == 2
      && run.value.executed[0].answers == [Answer("1", FallbackOutput(error))]
      && !FullyAnswered(env, 0, run.value.executed[0])
  {
    hide BatchResult, RunFrom, FullyAnswered, TwoCalls;
    TwoCallsFound(env.lib, text, name, env.newCallId(0));
    hide AcceptedCalls;
    NoCallsFound(env.lib, last, [FunctionTool(name, None)], env.newCallId(1));
    FallbackRun(env, config, [FunctionTool(name, None)], text, last, error);
  }

  lemma NoCallsFound(lib: JsonLibrary, text: string, tools: seq<FunctionTool>, newId: nat -> string)
    requires lib.payload(text) == Null
    ensures AcceptedCalls(lib, text, tools, Auto, newId) == Success([])
  {
  }

  lemma {:induction false} FallbackRun(env: Oracles, config: LoopConfig, tools: seq<FunctionTool>, text: string,
                                       last: string, error: string)
    requires config.agentFallback && config.maxToolSteps >= 1
    requires CallsAt(env, 0, text, tools, Auto).Success? && |CallsAt(env, 0, text, tools, Auto).value| == 2
    requires CallsAt(env, 1, last, tools, Auto) == Success([])
    requires forall k: nat, call: FunctionCall :: env.webhook(0, k, call) == Failure(error)
    requires forall answers: seq<Answer> :: env.agent(0, answers) == Success(last)
    ensures var run, calls := RunFrom(env, config, tools, Auto, 0, text), CallsAt(env, 0, text, tools, Auto).value;
      var round := Round(text, calls, [Answer(calls[0].callId, FallbackOutput(error))]);
      run == Success(LoopOutcome(last, [round], [], false)) && !FullyAnswered(env, 0, round)
  {
    var calls := CallsAt(env, 0, text, tools, Auto).value;
    TwoFailed(env, calls, error);
    hide AcceptedCalls, CallsAt, BatchResult, Answers, RunFrom, Prepend;
    var answers := Answers(calls, [FallbackOutput(error)]);
    assert answers == [Answer(calls[0].callId, FallbackOutput(error))];
    assert env.agent(0, answers) == Success(last);
    NothingYet(env.lib, RunFrom(env, config, tools, Auto, 0, text));
    RunContinues(env, config, tools, Auto, 0, text, []);
    assert [] + [Round(text, calls, answers)] == [Round(text, calls, answers)];
    RunStops(env, config, tools, Auto, 1, last, [Round(text, calls, answers)]);
  }

  lemma {:induction false} TwoFailed(env: Oracles, calls: seq<FunctionCall>, error: string)
    requires |calls| == 2
    requires forall k: nat, call: FunctionCall :: env.webhook(0, k, call) == Failure(error)
    ensures BatchResult(env, 0, calls) == Failure(error)
  {
    assert calls[..1][..0] == [];
    assert BatchResult(env, 0, calls[..1]) == Failure(error);
  }
}
