/** The events a worker streams to its consumers (crates/copenai-acp/src/backend.rs). */
module Events {
  import opened Wrappers

  const U32_RANGE := 0x1_0000_0000
  type u32 = x: int | 0 <= x < U32_RANGE

  datatype UsageSnapshot = UsageSnapshot(promptTokens: u32, completionTokens: u32, totalTokens: u32)

  const NO_USAGE := UsageSnapshot(0, 0, 0)

  /** What a client may rely on in a usage report. */
  predicate UsageSound(u: UsageSnapshot) {
    u.totalTokens >= 1 && u.promptTokens + u.completionTokens <= u.totalTokens
  }

  function Saturate(n: nat): u32 {
    if n < U32_RANGE then n else U32_RANGE - 1
  }

  function FromAcp(used: nat, size: nat): (u: UsageSnapshot)
    ensures UsageSound(u) <==> used > 0 || size > 0
    ensures u.totalTokens == 0 <==> used == size == 0
  {
    var p, s := Saturate(used), Saturate(size);
    UsageSnapshot(p, 0, if p > s then p else s)
  }

  /** The count of prompt tokens before it is cast to 32 bits. */
  function PromptEstimate(chars: nat): nat {
    if chars / 4 > 1 then chars / 4 else 1
  }

  function Estimate(promptChars: nat, completionChars: nat): UsageSnapshot {
    var p := PromptEstimate(promptChars) % U32_RANGE;
    var c := completionChars / 4 % U32_RANGE;
    UsageSnapshot(p, c, (p + c) % U32_RANGE)
  }

  /** The three casts and the addition lose nothing exactly when the true total
      fits 32 bits, and then the report is sound. */
  lemma EstimateExactness(promptChars: nat, completionChars: nat)
    ensures var u := Estimate(promptChars, completionChars);
            var p, c := PromptEstimate(promptChars), completionChars / 4;
            && (u.promptTokens == p && u.completionTokens == c && u.totalTokens == p + c
                <==> p + c < U32_RANGE)
            && (p + c < U32_RANGE ==> UsageSound(u))
            && p == (if promptChars < 8 then 1 else promptChars / 4)
    ensures promptChars < 0x2_0000_0000 && completionChars < 0x2_0000_0000
            ==> UsageSound(Estimate(promptChars, completionChars))
  {
    var p, c := PromptEstimate(promptChars), completionChars / 4;
    if p + c < U32_RANGE {
      assert p % U32_RANGE == p && c % U32_RANGE == c;
    }
  }

  datatype FinishReason = Stop | Length | ContentFilter {

    function AsOpenAiString(): string {
      match this
      case Stop => "stop"
      case Length => "length"
      case ContentFilter => "content_filter"
    }
  }

  datatype AgentToolEventKind = Started | Updated

  /** rawInput is the rendered JSON text of the tool's input. */
  datatype AgentToolEvent = AgentToolEvent(kind: AgentToolEventKind, toolCallId: string,
                                           title: string, rawInput: Option<string>)

  datatype PromptStreamEvent =
    | Delta(delta: string)
    | ReasoningDelta(thought: string)
    | AgentToolCall(tool: AgentToolEvent)
    | Usage(usage: UsageSnapshot)
    | Done(finishReason: FinishReason, fullText: string, finalUsage: UsageSnapshot)
    | Error(message: string)
  {
    predicate IsTerminal() {
      Done? || Error?
    }
  }

  /** The events before the first terminal one. */
  function Live(events: seq<PromptStreamEvent>): (r: seq<PromptStreamEvent>)
    ensures |r| <= |events| && r == events[..|r|]
    ensures forall k :: 0 <= k < |r| ==> !r[k].IsTerminal()
    ensures |r| < |events| ==> events[|r|].IsTerminal()
  {
    if events == [] || events[0].IsTerminal() then [] else [events[0]] + Live(events[1..])
  }

  lemma {:induction false} LiveUnique(events: seq<PromptStreamEvent>, n: nat)
    requires n <= |events|
    requires forall k :: 0 <= k < n ==> !events[k].IsTerminal()
    requires n < |events| ==> events[n].IsTerminal()
    ensures Live(events) == events[..n]
  {
    assert |Live(events)| == n;
  }

  /** The text deltas of a run of events, in order. */
  function Deltas(events: seq<PromptStreamEvent>): (r: seq<string>) {
    if events == [] then [] else
      var front := Deltas(events[..|events| - 1]);
      var last := events[|events| - 1];
      if last.Delta? then front + [last.delta] else front
  }

  function Concat(parts: seq<string>): (r: string) {
    if parts == [] then "" else Concat(parts[..|parts| - 1]) + parts[|parts| - 1]
  }

  function LastUsage(events: seq<PromptStreamEvent>): (r: UsageSnapshot) {
    if events == [] then NO_USAGE else
      var last := events[|events| - 1];
      if last.Usage? then last.usage else LastUsage(events[..|events| - 1])
  }

  function TextOf(events: seq<PromptStreamEvent>): string {
    Concat(Deltas(events))
  }

  datatype Collected = Collected(text: string, usage: UsageSnapshot, finish: FinishReason)

  /** What a whole stream amounts to: the first terminal event decides; without
      one the deltas, the last usage report and a plain stop stand. */
  function Collect(events: seq<PromptStreamEvent>): Result<Collected, string> {
    var live := Live(events);
    if |live| == |events| then
      Success(Collected(TextOf(live), LastUsage(live), Stop))
    else if events[|live|].Done? then
      Success(Collected(events[|live|].fullText, events[|live|].finalUsage, events[|live|].finishReason))
    else
      Failure(events[|live|].message)
  }

  /** Reading position i has not passed the live part: event i is either the
      first terminal event or one more live event. */
  lemma {:induction false} LiveStep(events: seq<PromptStreamEvent>, i: nat)
    requires i <= |Live(events)| && i < |events|
    ensures events[i].IsTerminal() ==> Live(events) == events[..i]
    ensures !events[i].IsTerminal() ==> i < |Live(events)|
    ensures events[..i + 1][..i] == events[..i]
  {
    assert i < |Live(events)| ==> Live(events)[i] == events[i];
  }

  lemma NothingRead()
    ensures TextOf([]) == "" && LastUsage([]) == NO_USAGE
  {
  }

  /** What one more event adds to the text and the usage. */
  lemma ReadStep(events: seq<PromptStreamEvent>, i: nat)
    requires i < |events|
    ensures TextOf(events[..i + 1]) == TextOf(events[..i]) + (if events[i].Delta? then events[i].delta else "")
    ensures LastUsage(events[..i + 1]) == if events[i].Usage? then events[i].usage else LastUsage(events[..i])
  {
    assert events[..i + 1][..i] == events[..i];
    var deltas := Deltas(events[..i]);
    if events[i].Delta? {
      assert (deltas + [events[i].delta])[..|deltas|] == deltas;
    } else {
      assert TextOf(events[..i]) + "" == TextOf(events[..i]);
    }
  }

  /** Whatever comes after it, the first Done is the whole answer and the first
      error the only one. */
  lemma FirstTerminalDecides(events: seq<PromptStreamEvent>, n: nat)
    requires n < |events|
    requires forall k :: 0 <= k < n ==> !events[k].Done? && !events[k].Error?
    ensures events[n].Done? ==>
      Collect(events) == Success(Collected(events[n].fullText, events[n].finalUsage, events[n].finishReason))
    ensures events[n].Error? ==> Collect(events) == Failure(events[n].message)
  {
    if events[n].IsTerminal() {
      LiveUnique(events, n);
    }
  }

  /** Without a terminal event the answer is the text of the deltas, with the last
      report and a plain stop. One more live event changes only what it carries. */
  lemma CollectMore(events: seq<PromptStreamEvent>, event: PromptStreamEvent)
    requires forall k :: 0 <= k < |events| ==> !events[k].Done? && !events[k].Error?
    ensures Collect([]) == Success(Collected("", UsageSnapshot(0, 0, 0), Stop))
    ensures Collect(events).Success?
    ensures var c := Collect(events).value;
      Collect(events + [event]) ==
        match event
        case Delta(t) => Success(c.(text := c.text + t))
        case ReasoningDelta(_) => Success(c)
        case AgentToolCall(_) => Success(c)
        case Usage(u) => Success(c.(usage := u))
        case Done(reason, text, u) => Success(Collected(text, u, reason))
        case Error(m) => Failure(m)
  {
    hide TextOf, LastUsage;
    var more := events + [event];
    NothingRead();
    LiveUnique(events, |events|);
    assert events[..|events|] == events;
    assert more[..|events|] == events && more[..|events| + 1] == more;
    ReadStep(more, |events|);
    LiveUnique(more, if event.IsTerminal() then |events| else |more|);
    assert TextOf(events) + "" == TextOf(events);
  }

  method CollectStream(events: seq<PromptStreamEvent>) returns (r: Result<Collected, string>)
    ensures r == Collect(events)
  {
    var text, usage, finish := "", NO_USAGE, Stop;
    var i := 0;
    while i < |events|
      invariant 0 <= i <= |events|
      invariant i <= |Live(events)|
      invariant text == TextOf(events[..i])
      invariant usage == LastUsage(events[..i])
      invariant finish == Stop
    {
      LiveStep(events, i);
      ReadStep(events, i);
      match events[i] {
        case Delta(delta) => text := text + delta;
        case ReasoningDelta(_) =>
        case AgentToolCall(_) =>
        case Usage(u) => usage := u;
        case Done(reason, fullText, u) =>
          return Success(Collected(fullText, u, reason));
        case Error(e) =>
          return Failure(e);
      }
      i := i + 1;
    }
    assert Live(events) == events[..i];
    r := Success(Collected(text, usage, finish));
  }
}
