/** One prompt executed by an ACP worker (crates/copenai-acp/src/worker.rs).
    The agent is an oracle: what it answers, which notifications reach the sink
    and after how many of them the drain goes idle are all arbitrary inputs. */
module Worker {
  import opened Wrappers
  import opened Events

  /** The UTF-8 length of a string, which is what the original counts. */
  function ByteLength(s: string): (n: nat) {
    if s == "" then 0 else ByteLength(s[..|s| - 1]) + CharBytes(s[|s| - 1])
  }

  function CharBytes(c: char): nat {
    var code := c as int;
    if code < 0x80 then 1 else if code < 0x800 then 2 else if code < 0x10000 then 3 else 4
  }

  datatype ChunkContent = Text(text: string) | OtherContent

  datatype SessionUpdate =
    | AgentMessageChunk(content: ChunkContent)
    | AgentThoughtChunk(content: ChunkContent)
    | ToolCallNotice(toolCall: AgentToolEvent)
    | UsageUpdate(used: nat, size: nat)
    | OtherUpdate

  datatype StopReason = EndTurn | MaxTokens | MaxTurnRequests | Refusal | CancelledTurn

  function FromAcpStop(reason: StopReason): FinishReason {
    match reason
    case MaxTokens => Length
    case Refusal => ContentFilter
    case _ => Stop
  }

  datatype Block = TextBlock(text: string) | ImageBlock | AudioBlock | OtherBlock

  /** Everything outside the worker that decides how one prompt goes. */
  datatype PromptRun = PromptRun(
    samplingError: Option<string>,
    audio: bool,
    image: bool,
    blocks: seq<Block>,
    reply: Result<StopReason, string>,
    notifications: seq<SessionUpdate>,
    idleAfter: nat,
    touchError: Option<string>,
    promptChars: nat)

  /** The event, if any, that the notification handler puts into the open sink. */
  function SinkEvent(update: SessionUpdate): (r: Option<PromptStreamEvent>)
    ensures r.Some? ==> !r.value.IsTerminal()
    ensures r.Some? && r.value.Usage? && r.value.usage.totalTokens > 0 ==> UsageSound(r.value.usage)
  {
    match update
    case AgentMessageChunk(Text(t)) => Some(Delta(t))
    case AgentThoughtChunk(Text(t)) => Some(ReasoningDelta(t))
    case ToolCallNotice(t) => Some(AgentToolCall(t))
    case UsageUpdate(used, size) => Some(Usage(FromAcp(used, size)))
    case _ => None
  }

  function Queue(updates: seq<SessionUpdate>): (r: seq<PromptStreamEvent>)
    ensures forall e :: e in r ==> !e.IsTerminal()
    ensures forall e :: e in r && e.Usage? && e.usage.totalTokens > 0 ==> UsageSound(e.usage)
  {
    if updates == [] then [] else
      var last := SinkEvent(updates[|updates| - 1]);
      Queue(updates[..|updates| - 1]) + (if last.Some? then [last.value] else [])
  }

  function UnsupportedBlock(blocks: seq<Block>, audio: bool, image: bool): Option<string> {
    if blocks == [] then None
    else if blocks[0].AudioBlock? && !audio then Some("agent does not support audio prompts")
    else if blocks[0].ImageBlock? && !image then Some("agent does not support image prompts")
    else UnsupportedBlock(blocks[1..], audio, image)
  }

  /** The agent takes this block. */
  predicate Takes(block: Block, audio: bool, image: bool) {
    (block.AudioBlock? ==> audio) && (block.ImageBlock? ==> image)
  }

  /** Block k is the first that the agent does not take, and the message says why. */
  predicate RefusedAt(blocks: seq<Block>, k: nat, audio: bool, image: bool, message: string)
    requires k < |blocks|
  {
    && (forall j :: 0 <= j < k ==> Takes(blocks[j], audio, image))
    && !Takes(blocks[k], audio, image)
    && (blocks[k].AudioBlock? ==> message == "agent does not support audio prompts")
    && (blocks[k].ImageBlock? ==> message == "agent does not support image prompts")
  }

  /** The first block that the agent does not take is refused, with its message. */
  method CheckBlocks(blocks: seq<Block>, audio: bool, image: bool) returns (r: Option<string>)
    ensures r == UnsupportedBlock(blocks, audio, image)
    ensures r.None? <==> forall k :: 0 <= k < |blocks| ==> Takes(blocks[k], audio, image)
    ensures r.Some? ==> exists k :: 0 <= k < |blocks| && RefusedAt(blocks, k, audio, image, r.value)
  {
    var i := 0;
    while i < |blocks|
      invariant 0 <= i <= |blocks|
      invariant forall j :: 0 <= j < i ==> Takes(blocks[j], audio, image)
      invariant UnsupportedBlock(blocks, audio, image) == UnsupportedBlock(blocks[i..], audio, image)
    {
      if blocks[i].AudioBlock? && !audio {
        assert RefusedAt(blocks, i, audio, image, "agent does not support audio prompts");
        return Some("agent does not support audio prompts");
      }
      if blocks[i].ImageBlock? && !image {
        assert RefusedAt(blocks, i, audio, image, "agent does not support image prompts");
        return Some("agent does not support image prompts");
      }
      i := i + 1;
    }
    return None;
  }

  /** A stream as a worker produces it: live events, then one terminal event,
      and a Done that repeats exactly what the deltas said. */
  ghost predicate WorkerStream(events: seq<PromptStreamEvent>) {
    && events != []
    && Live(events) == events[..|events| - 1]
    && (events[|events| - 1].Done? ==> events[|events| - 1].fullText == TextOf(Live(events)))
  }

  /** The usage report fits its type: an agent report, or an estimate that does
      not overflow 32 bits. */
  predicate Countable(promptChars: nat, text: string) {
    PromptEstimate(promptChars) + ByteLength(text) / 4 < U32_RANGE
  }

  method Drain(queue: seq<PromptStreamEvent>, idleAfter: nat)
    returns (collected: string, usage: UsageSnapshot, sent: seq<PromptStreamEvent>)
    requires forall e :: e in queue ==> !e.IsTerminal()
    requires forall e :: e in queue && e.Usage? && e.usage.totalTokens > 0 ==> UsageSound(e.usage)
    ensures sent == queue[..if idleAfter < |queue| then idleAfter else |queue|]
    ensures collected == TextOf(sent)
    ensures usage == LastUsage(sent)
    ensures usage.totalTokens > 0 ==> UsageSound(usage)
  {
    collected, usage, sent := "", NO_USAGE, [];
    while |sent| < |queue| && |sent| < idleAfter
      invariant |sent| <= |queue| && |sent| <= idleAfter
      invariant sent == queue[..|sent|]
      invariant collected == TextOf(sent)
      invariant usage == LastUsage(sent)
      invariant usage.totalTokens > 0 ==> UsageSound(usage)
      decreases |queue| - |sent|
    {
      var event := queue[|sent|];
      match event {
        case Delta(delta) => collected := collected + delta;
        case Usage(u) => usage := u;
        case _ =>
      }
      ghost var before := sent;
      sent := sent + [event];
      assert sent[..|sent| - 1] == before;
    }
  }

  // ---- What the notifications say, and what of it the consumer hears ----

  /** The texts of the agent's message chunks. */
  function MessageTexts(updates: seq<SessionUpdate>): seq<string> {
    if updates == [] then [] else
      var last := updates[|updates| - 1];
      MessageTexts(updates[..|updates| - 1])
      + (if last.AgentMessageChunk? && last.content.Text? then [last.content.text] else [])
  }

  function ThoughtTexts(updates: seq<SessionUpdate>): seq<string> {
    if updates == [] then [] else
      var last := updates[|updates| - 1];
      ThoughtTexts(updates[..|updates| - 1])
      + (if last.AgentThoughtChunk? && last.content.Text? then [last.content.text] else [])
  }

  function ToolNotices(updates: seq<SessionUpdate>): seq<AgentToolEvent> {
    if updates == [] then [] else
      var last := updates[|updates| - 1];
      ToolNotices(updates[..|updates| - 1]) + (if last.ToolCallNotice? then [last.toolCall] else [])
  }

  function UsageUpdates(updates: seq<SessionUpdate>): seq<SessionUpdate> {
    if updates == [] then [] else
      var last := updates[|updates| - 1];
      UsageUpdates(updates[..|updates| - 1]) + (if last.UsageUpdate? then [last] else [])
  }

  function Thoughts(events: seq<PromptStreamEvent>): seq<string> {
    if events == [] then [] else
      var last := events[|events| - 1];
      Thoughts(events[..|events| - 1]) + (if last.ReasoningDelta? then [last.thought] else [])
  }

  function NoticesIn(events: seq<PromptStreamEvent>): seq<AgentToolEvent> {
    if events == [] then [] else
      var last := events[|events| - 1];
      NoticesIn(events[..|events| - 1]) + (if last.AgentToolCall? then [last.tool] else [])
  }

  function Reports(events: seq<PromptStreamEvent>): seq<UsageSnapshot> {
    if events == [] then [] else
      var last := events[|events| - 1];
      Reports(events[..|events| - 1]) + (if last.Usage? then [last.usage] else [])
  }

  /** A report carries the agent's numbers, cut to 32 bits; the window size stands
      in for the total when it is larger than what was used. */
  predicate Reported(u: UsageSnapshot, update: SessionUpdate) {
    && update.UsageUpdate?
    && u.completionTokens == 0
    && u.promptTokens == (if update.used <= 4294967295 then update.used else 4294967295)
    && (update.used >= update.size ==> u.totalTokens == u.promptTokens)
    && (update.used <= update.size ==>
          u.totalTokens == if update.size <= 4294967295 then update.size else 4294967295)
  }

  /** The events say what the updates say, and nothing else. */
  ghost predicate Forwards(events: seq<PromptStreamEvent>, updates: seq<SessionUpdate>) {
    && Deltas(events) == MessageTexts(updates)
    && Thoughts(events) == ThoughtTexts(updates)
    && NoticesIn(events) == ToolNotices(updates)
    && |Reports(events)| == |UsageUpdates(updates)|
    && forall k :: 0 <= k < |Reports(events)| ==> Reported(Reports(events)[k], UsageUpdates(updates)[k])
  }

  /** What is sent comes from the front of the notifications, event by event, and
      from all of them when the drain does not go idle before the queue is empty. */
  ghost predicate Drained(sent: seq<PromptStreamEvent>, updates: seq<SessionUpdate>, idleAfter: nat) {
    && |sent| <= idleAfter
    && (forall k :: 0 <= k <= |sent| ==> exists n :: 0 <= n <= |updates| && Forwards(sent[..k], updates[..n]))
    && (|sent| < idleAfter ==> Forwards(sent, updates))
  }

  /** What the consumer may be sent before the end, said of the notifications. */
  ghost predicate IsForwarded(run: PromptRun, sent: seq<PromptStreamEvent>) {
    if run.samplingError.Some? || run.reply.Failure?
       || exists k :: 0 <= k < |run.blocks| && !Takes(run.blocks[k], run.audio, run.image)
    then sent == []
    else Drained(sent, run.notifications, run.idleAfter)
  }

  /** The end of a prompt that did not fail, said of the agent's reply, of what was
      sent and of the length of the prompt. */
  ghost predicate Ends(run: PromptRun, sent: seq<PromptStreamEvent>, end: PromptStreamEvent) {
    && run.reply.Success? && end.Done?
    && end.fullText == Concat(Deltas(sent))
    && (end.finishReason.AsOpenAiString() == "length" <==> run.reply.value == MaxTokens)
    && (end.finishReason.AsOpenAiString() == "content_filter" <==> run.reply.value == Refusal)
    && (end.finishReason.AsOpenAiString() == "stop"
        <==> run.reply.value in {EndTurn, MaxTurnRequests, CancelledTurn})
    && var reports := Reports(sent);
       var p, c := if run.promptChars < 8 then 1 else run.promptChars / 4, ByteLength(end.fullText) / 4;
       if reports != [] && reports[|reports| - 1].totalTokens != 0 then end.finalUsage == reports[|reports| - 1]
       else p + c <= 4294967295 ==> end.finalUsage == UsageSnapshot(p, c, p + c)
  }

  /** The first thing that went wrong, in the order in which it is noticed. */
  ghost predicate Fails(run: PromptRun, message: string) {
    if run.samplingError.Some? then message == run.samplingError.value
    else if exists k :: 0 <= k < |run.blocks| && !Takes(run.blocks[k], run.audio, run.image) then
      exists k :: 0 <= k < |run.blocks| && RefusedAt(run.blocks, k, run.audio, run.image, message)
    else if run.reply.Failure? then message == run.reply.error
    else run.touchError == Some(message)
  }

  ghost predicate NothingFails(run: PromptRun) {
    && run.samplingError.None? && run.reply.Success? && run.touchError.None?
    && forall k :: 0 <= k < |run.blocks| ==> Takes(run.blocks[k], run.audio, run.image)
  }

  lemma ForwardsNothing()
    ensures Forwards([], [])
  {
  }

  /** One more update adds its event, if it has one, to what is heard. */
  lemma ForwardsMore(events: seq<PromptStreamEvent>, updates: seq<SessionUpdate>, update: SessionUpdate)
    requires Forwards(events, updates)
    ensures SinkEvent(update).Some? ==> Forwards(events + [SinkEvent(update).value], updates + [update])
    ensures SinkEvent(update).None? ==> Forwards(events, updates + [update])
  {
    assert (updates + [update])[..|updates|] == updates;
    var event := SinkEvent(update);
    if event.Some? {
      assert (events + [event.value])[..|events|] == events;
    }
  }

  /** Every front of the queue forwards a front of the updates, and the whole queue
      all of them. */
  lemma {:induction false} QueueForwards(updates: seq<SessionUpdate>)
    ensures Forwards(Queue(updates), updates)
    ensures forall k :: 0 <= k <= |Queue(updates)| ==>
              exists n :: 0 <= n <= |updates| && Forwards(Queue(updates)[..k], updates[..n])
  {
    hide Forwards;
    if updates == [] {
      ForwardsNothing();
      assert Queue(updates)[..0] == [] && updates[..0] == [];
    } else {
      var front, last := updates[..|updates| - 1], updates[|updates| - 1];
      QueueForwards(front);
      ForwardsMore(Queue(front), front, last);
      assert front + [last] == updates && updates[..|updates|] == updates;
      var queue := Queue(updates);
      assert SinkEvent(last).None? ==> queue == Queue(front);
      forall k | 0 <= k <= |queue| ensures exists n :: 0 <= n <= |updates| && Forwards(queue[..k], updates[..n]) {
        if k <= |Queue(front)| {
          assert queue[..k] == Queue(front)[..k];
          var n :| 0 <= n <= |front| && Forwards(Queue(front)[..k], front[..n]);
          assert updates[..n] == front[..n];
        } else {
          assert queue[..k] == queue;
        }
      }
    }
  }

  lemma {:induction false} QueueDrained(updates: seq<SessionUpdate>, idleAfter: nat)
    ensures var queue := Queue(updates);
            Drained(queue[..if idleAfter < |queue| then idleAfter else |queue|], updates, idleAfter)
  {
    hide Forwards;
    QueueForwards(updates);
    var queue := Queue(updates);
    var sent := queue[..if idleAfter < |queue| then idleAfter else |queue|];
    forall k | 0 <= k <= |sent| ensures exists n :: 0 <= n <= |updates| && Forwards(sent[..k], updates[..n]) {
      assert sent[..k] == queue[..k];
      var n :| 0 <= n <= |updates| && Forwards(queue[..k], updates[..n]);
    }
    if |sent| < idleAfter {
      assert sent == queue;
    }
  }

  lemma StreamedIsForwarded(run: PromptRun)
    ensures IsForwarded(run, Streamed(run))
  {
    BlocksRefused(run.blocks, run.audio, run.image);
    QueueDrained(run.notifications, run.idleAfter);
  }

  lemma {:induction false} BlocksRefused(blocks: seq<Block>, audio: bool, image: bool)
    ensures UnsupportedBlock(blocks, audio, image).Some?
            <==> exists k :: 0 <= k < |blocks| && !Takes(blocks[k], audio, image)
  {
    if blocks != [] {
      BlocksRefused(blocks[1..], audio, image);
      if Takes(blocks[0], audio, image) {
        forall k | 0 <= k < |blocks| && !Takes(blocks[k], audio, image)
          ensures exists j :: 0 <= j < |blocks[1..]| && !Takes(blocks[1..][j], audio, image)
        {
          assert blocks[1..][k - 1] == blocks[k];
        }
      }
    }
  }

  lemma {:induction false} LastReport(events: seq<PromptStreamEvent>)
    ensures var reports := Reports(events);
            LastUsage(events) == if reports == [] then NO_USAGE else reports[|reports| - 1]
  {
    if events != [] {
      LastReport(events[..|events| - 1]);
    }
  }

  lemma EndOfPrompt(run: PromptRun)
    requires run.reply.Success?
    ensures Ends(run, Streamed(run), FinalEvent(run))
  {
    hide Streamed, Reports, Deltas, Concat;
    LastReport(Streamed(run));
    EstimateExactness(run.promptChars, ByteLength(TextOf(Streamed(run))));
  }

  /** Bytes are counted character by character: one below 0x80, then two, three
      and four. */
  lemma {:induction false} BytesCounted(s: string, t: string, c: char)
    ensures ByteLength(s + t) == ByteLength(s) + ByteLength(t)
    ensures ByteLength("") == 0
    ensures (c as int) < 0x80 ==> ByteLength([c]) == 1
    ensures 0x80 <= (c as int) < 0x800 ==> ByteLength([c]) == 2
    ensures 0x800 <= (c as int) < 0x10000 ==> ByteLength([c]) == 3
    ensures 0x10000 <= (c as int) ==> ByteLength([c]) == 4
  {
    assert [c][..0] == "" && ByteLength([c]) == ByteLength("") + CharBytes(c);
    if t == "" {
      assert s + t == s;
    } else {
      var n := |t| - 1;
      assert (s + t)[..|s| + n] == s + t[..n];
      BytesCounted(s, t[..n], c);
    }
  }

  /** The first thing that goes wrong, if anything does. */
  function PromptError(run: PromptRun): Option<string> {
    var unsupported := UnsupportedBlock(run.blocks, run.audio, run.image);
    if run.samplingError.Some? then run.samplingError
    else if unsupported.Some? then unsupported
    else if run.reply.Failure? then Some(run.reply.error)
    else run.touchError
  }

  /** What the consumer is sent before the terminal event: nothing unless the agent
      replied, and then what is drained before the queue goes idle. */
  function Streamed(run: PromptRun): seq<PromptStreamEvent> {
    if run.samplingError.Some? || UnsupportedBlock(run.blocks, run.audio, run.image).Some? || run.reply.Failure? then []
    else
      var queue := Queue(run.notifications);
      queue[..if run.idleAfter < |queue| then run.idleAfter else |queue|]
  }

  /** The agent's last report if it has a total, else an estimate from what was said. */
  function FinalUsage(run: PromptRun): UsageSnapshot {
    var reported := LastUsage(Streamed(run));
    if reported.totalTokens == 0 then Estimate(run.promptChars, ByteLength(TextOf(Streamed(run)))) else reported
  }

  function FinalEvent(run: PromptRun): PromptStreamEvent
    requires run.reply.Success?
  {
    Done(FromAcpStop(run.reply.value), TextOf(Streamed(run)), FinalUsage(run))
  }

  /** execute_prompt: everything is sent while it is drained; the Done event comes
      last and only when nothing failed. */
  method ExecutePrompt(run: PromptRun) returns (r: Result<(), string>, sent: seq<PromptStreamEvent>)
    ensures r == if PromptError(run).Some? then Failure(PromptError(run).value) else Success(())
    ensures r.Success? <==> NothingFails(run)
    ensures r.Failure? ==> Fails(run, r.error)
    ensures forall k :: 0 <= k < |Streamed(run)| ==> !Streamed(run)[k].IsTerminal()
    ensures r.Failure? ==> sent == Streamed(run)
    ensures r.Success? ==> run.reply.Success? && sent == Streamed(run) + [FinalEvent(run)]
    ensures r.Success? && Countable(run.promptChars, TextOf(Streamed(run))) ==> UsageSound(FinalUsage(run))
  {
    sent := [];
    if run.samplingError.Some? {
      return Failure(run.samplingError.value), sent;
    }
    var unsupported := CheckBlocks(run.blocks, run.audio, run.image);
    if unsupported.Some? {
      return Failure(unsupported.value), sent;
    }
    if run.reply.Failure? {
      return Failure(run.reply.error), sent;
    }
    var queue := Queue(run.notifications);
    var collected, usage;
    collected, usage, sent := Drain(queue, run.idleAfter);
    if usage.totalTokens == 0 {
      usage := Estimate(run.promptChars, ByteLength(collected));
      EstimateExactness(run.promptChars, ByteLength(collected));
    }
    if run.touchError.Some? {
      return Failure(run.touchError.value), sent;
    }
    sent := sent + [Done(FromAcpStop(run.reply.value), collected, usage)];
    r := Success(());
  }

  /** One Prompt command of the command loop, with a consumer that stays: the
      stream is a worker stream of what the agent notified, and it ends in Done
      exactly when no step failed. */
  method RunPrompt(run: PromptRun) returns (sent: seq<PromptStreamEvent>)
    ensures WorkerStream(sent)
    ensures IsForwarded(run, sent[..|sent| - 1])
    ensures NothingFails(run) <==> sent[|sent| - 1].Done?
    ensures NothingFails(run) ==> Ends(run, sent[..|sent| - 1], sent[|sent| - 1])
    ensures !NothingFails(run) ==> sent[|sent| - 1].Error? && Fails(run, sent[|sent| - 1].message)
    ensures Live(sent) == Streamed(run) && |sent| == |Streamed(run)| + 1
    ensures forall k :: 0 <= k < |sent| - 1 ==> !sent[k].IsTerminal()
    ensures PromptError(run).Some? ==> sent[|sent| - 1] == Error(PromptError(run).value)
    ensures PromptError(run).None? ==> run.reply.Success? && sent[|sent| - 1] == FinalEvent(run)
    ensures sent[|sent| - 1].Done? && Countable(run.promptChars, sent[|sent| - 1].fullText)
            ==> UsageSound(sent[|sent| - 1].finalUsage)
  {
    hide *;
    var r;
    r, sent := ExecutePrompt(run);
    StreamedIsForwarded(run);
    if r.Failure? {
      sent := sent + [Error(r.error)];
    } else {
      EndOfPrompt(run);
      FinalIs(run);
    }
    WithEnd(Streamed(run), sent[|Streamed(run)|]);
  }

  lemma FinalIs(run: PromptRun)
    requires run.reply.Success?
    ensures FinalEvent(run).Done?
    ensures FinalEvent(run).fullText == TextOf(Streamed(run)) && FinalEvent(run).finalUsage == FinalUsage(run)
  {
  }

  /** One terminal event behind live events makes a worker stream. */
  lemma WithEnd(live: seq<PromptStreamEvent>, end: PromptStreamEvent)
    requires forall k :: 0 <= k < |live| ==> !live[k].IsTerminal()
    requires end.Error? || (end.Done? && end.fullText == TextOf(live))
    ensures var sent := live + [end];
      WorkerStream(sent) && Live(sent) == live && sent[..|sent| - 1] == live
  {
    var sent := live + [end];
    assert sent[..|live|] == live;
    LiveUnique(sent, |live|);
  }

  /** Reading a worker stream back: a text result is exactly the streamed text. */
  lemma {:induction false} WorkerStreamCollects(events: seq<PromptStreamEvent>)
    requires WorkerStream(events)
    ensures Collect(events).Success? <==> events[|events| - 1].Done?
    ensures Collect(events).Success? ==> Collect(events).value.text == TextOf(Live(events))
  {
    assert |Live(events)| == |events| - 1;
  }
}
