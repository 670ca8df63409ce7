/** Permission requests: the table, the handler that polls it, and any number of
    answers arriving from outside (crates/copenai-store/src/permissions.rs,
    crates/copenai-acp/src/worker.rs). */
module Permissions {
  import opened Wrappers

  type Id = string

  datatype Status = Pending | Approved | Cancelled

  datatype PermissionRequest = PermissionRequest(
    id: Id, conversationId: string, toolTitle: string, optionsJson: string,
    status: Status, decisionOptionId: Option<string>)

  type Table = map<Id, PermissionRequest>

  // ---- The statements ----

  function Inserted(rows: Table, id: Id, conversationId: string, title: string, options: string): Table {
    rows[id := PermissionRequest(id, conversationId, title, options, Pending, None)]
  }

  /** Compare and set: only a pending request takes an answer. */
  function Responded(rows: Table, id: Id, option: Option<string>, cancel: bool): Table {
    if id in rows && rows[id].status.Pending? then
      rows[id := rows[id].(status := if cancel then Cancelled else Approved, decisionOptionId := option)]
    else rows
  }

  predicate Accepts(rows: Table, id: Id) {
    id in rows && rows[id].status.Pending?
  }

  /** Unconditional. */
  function Resolved(rows: Table, id: Id, status: Status): Table {
    if id in rows then rows[id := rows[id].(status := status)] else rows
  }

  datatype Reading = Undecided | Decided(option: Option<string>)

  /** What one poll makes of the row it finds. */
  function Read(row: Option<PermissionRequest>): Reading {
    if row.None? then Decided(None)
    else match row.value.status
      case Approved => Decided(row.value.decisionOptionId)
      case Cancelled => Decided(None)
      case Pending => Undecided
  }

  function Lookup(rows: Table, id: Id): Option<PermissionRequest> {
    if id in rows then Some(rows[id]) else None
  }

  /** Only the row of this request may have changed. */
  ghost predicate OthersKept(before: Table, after: Table, id: Id) {
    forall other :: other != id ==>
      (other in before <==> other in after) && (other in before ==> after[other] == before[other])
  }

  class PermissionStore {
    var rows: Table

    constructor ()
      ensures rows == map[]
    {
      rows := map[];
    }

    /** id is a new UUID. */
    method InsertPending(id: Id, conversationId: string, title: string, options: string)
      requires id !in rows
      modifies this
      ensures rows == Inserted(old(rows), id, conversationId, title, options)
      ensures id in rows && OthersKept(old(rows), rows, id)
      ensures rows[id] == PermissionRequest(id, conversationId, title, options, Pending, None)
    {
      rows := rows[id := PermissionRequest(id, conversationId, title, options, Pending, None)];
    }

    method Respond(id: Id, option: Option<string>, cancel: bool) returns (accepted: bool)
      modifies this
      ensures accepted <==> Accepts(old(rows), id)
      ensures rows == Responded(old(rows), id, option, cancel)
      ensures accepted <==> id in old(rows) && old(rows)[id].status == Pending
      ensures !accepted ==> rows == old(rows)
      ensures accepted ==> id in rows && OthersKept(old(rows), rows, id) && var before := old(rows)[id];
        rows[id] == PermissionRequest(before.id, before.conversationId, before.toolTitle, before.optionsJson,
                                      if cancel then Cancelled else Approved, option)
    {
      var status := if cancel then Cancelled else Approved;
      accepted := id in rows && rows[id].status == Pending;
      if accepted {
        rows := rows[id := rows[id].(status := status, decisionOptionId := option)];
      }
    }

    method Resolve(id: Id, status: Status)
      modifies this
      ensures rows == Resolved(old(rows), id, status)
      ensures OthersKept(old(rows), rows, id) && (id in rows <==> id in old(rows))
      ensures id in rows ==> rows[id].status == status && rows[id] == old(rows)[id].(status := rows[id].status)
    {
      if id in rows {
        rows := rows[id := rows[id].(status := status)];
      }
    }
  }

  /** The polling loop alone. views(k) is the row as the k-th poll finds it; the
      deadline has passed from poll number deadline on. The first decided view
      decides; without one the deadline does. */
  method WaitForDecision(views: nat -> Option<PermissionRequest>, deadline: nat)
    returns (decision: Option<string>, polls: nat)
    ensures polls <= deadline
    ensures forall k :: 0 <= k < polls ==> Read(views(k)).Undecided?
    ensures if Read(views(polls)).Decided? then decision == Read(views(polls)).option
            else polls == deadline && decision == None
    ensures forall k :: 0 <= k < polls ==> views(k).Some? && views(k).value.status == Pending
    ensures var view := views(polls);
      if view.Some? && view.value.status == Approved then decision == view.value.decisionOptionId
      else decision == None && (view.Some? && view.value.status == Pending ==> polls == deadline)
  {
    polls := 0;
    while true
      invariant polls <= deadline
      invariant forall k :: 0 <= k < polls ==> Read(views(k)).Undecided?
      decreases deadline - polls
    {
      var row := views(polls);
      if row.Some? {
        match row.value.status {
          case Approved => return row.value.decisionOptionId, polls;
          case Cancelled => return None, polls;
          case Pending =>
        }
      } else {
        return None, polls;
      }
      if polls >= deadline {
        return None, polls;
      }
      polls := polls + 1;
    }
  }

  // ---- The protocol: handlers, answers and deadlines, interleaved ----

  datatype Outcome = Selected(option: string) | CancelledOutcome

  /** Between two polls the deadline is checked; after the decision the row is
      written, then the agent is told. */
  datatype Phase =
    | Polling
    | SawPending
    | HasDecision(decision: Option<string>)
    | WroteDecision(decision: Option<string>)
    | Told(outcome: Outcome)

  /** An answer that respond accepted. */
  datatype Answer = Answer(option: Option<string>, cancel: bool)

  /** accepted logs the answers respond reported as taken; heard is that log as it
      was at the handler's last poll. */
  datatype Handler = Handler(phase: Phase, accepted: seq<Answer>, heard: seq<Answer>)

  datatype System = System(rows: Table, handlers: map<Id, Handler>)

  const NO_REQUESTS := System(map[], map[])

  datatype Step =
    | Start(id: Id, conversationId: string, title: string, options: string)
    | Respond(id: Id, option: Option<string>, cancel: bool)
    | Poll(id: Id)
    | SleepOn(id: Id)
    | PassDeadline(id: Id)
    | WriteDecision(id: Id)
    | TellAgent(id: Id)

  function OutcomeOf(decision: Option<string>): Outcome {
    if decision.Some? then Selected(decision.value) else CancelledOutcome
  }

  predicate Enabled(s: System, step: Step) {
    match step
    case Start(id, _, _, _) => id !in s.rows && id !in s.handlers
    case Respond(_, _, _) => true
    case Poll(id) => id in s.handlers && s.handlers[id].phase.Polling?
    case SleepOn(id) => id in s.handlers && s.handlers[id].phase.SawPending?
    case PassDeadline(id) => id in s.handlers && s.handlers[id].phase.SawPending?
    case WriteDecision(id) => id in s.handlers && s.handlers[id].phase.HasDecision?
    case TellAgent(id) => id in s.handlers && s.handlers[id].phase.WroteDecision?
  }

  function Moved(s: System, id: Id, phase: Phase): System
    requires id in s.handlers
  {
    s.(handlers := s.handlers[id := s.handlers[id].(phase := phase)])
  }

  function Apply(s: System, step: Step): System
    requires Enabled(s, step)
  {
    match step
    case Start(id, conversationId, title, options) =>
      System(Inserted(s.rows, id, conversationId, title, options), s.handlers[id := Handler(Polling, [], [])])
    case Respond(id, option, cancel) =>
      System(Responded(s.rows, id, option, cancel),
             if Accepts(s.rows, id) && id in s.handlers
             then s.handlers[id := s.handlers[id].(accepted := s.handlers[id].accepted + [Answer(option, cancel)])]
             else s.handlers)
    case Poll(id) =>
      var reading := Read(Lookup(s.rows, id));
      var next := if reading.Decided? then HasDecision(reading.option) else SawPending;
      s.(handlers := s.handlers[id := s.handlers[id].(phase := next, heard := s.handlers[id].accepted)])
    case SleepOn(id) => Moved(s, id, Polling)
    case PassDeadline(id) => Moved(s, id, HasDecision(None))
    case WriteDecision(id) =>
      var decision := s.handlers[id].phase.decision;
      Moved(s.(rows := Resolved(s.rows, id, if decision.Some? then Approved else Cancelled)), id,
            WroteDecision(decision))
    case TellAgent(id) => Moved(s, id, Told(OutcomeOf(s.handlers[id].phase.decision)))
  }

  ghost predicate Leads(s: System, step: Step, s': System) {
    Enabled(s, step) && s' == Apply(s, step)
  }

  /** The steps lead from s to s'. */
  ghost predicate Run(s: System, steps: seq<Step>, s': System)
    decreases |steps|
  {
    if steps == [] then s == s' else Enabled(s, steps[0]) && Run(Apply(s, steps[0]), steps[1..], s')
  }

  // ---- What every step keeps ----

  /** The row and the log of an undecided handler tell the same story. */
  predicate RowMatchesLog(row: PermissionRequest, accepted: seq<Answer>) {
    match row.status
    case Pending => accepted == []
    case Approved => accepted == [Answer(row.decisionOptionId, false)]
    case Cancelled => accepted == [Answer(row.decisionOptionId, true)]
  }

  predicate HandlerInv(row: PermissionRequest, h: Handler) {
    && |h.accepted| <= 1
    && (h.heard == [] || h.heard == h.accepted)
    && match h.phase
       case Polling => RowMatchesLog(row, h.accepted) && h.heard == []
       case SawPending => RowMatchesLog(row, h.accepted) && h.heard == []
       case HasDecision(d) =>
         && RowMatchesLog(row, h.accepted)
         && (d.Some? ==> row.status.Approved? && row.decisionOptionId == d)
         && (d.Some? <==> h.heard != [] && !h.heard[0].cancel && h.heard[0].option.Some?)
         && (d.Some? ==> h.heard == [Answer(d, false)])
       case WroteDecision(d) =>
         && row.status == (if d.Some? then Approved else Cancelled)
         && (d.Some? <==> h.heard != [] && !h.heard[0].cancel && h.heard[0].option.Some?)
         && (d.Some? ==> h.heard == [Answer(d, false)])
       case Told(o) =>
         && row.status == (if o.Selected? then Approved else Cancelled)
         && (o.Selected? <==> h.heard != [] && !h.heard[0].cancel && h.heard[0].option.Some?)
         && (o.Selected? ==> h.heard == [Answer(Some(o.option), false)])
  }

  ghost predicate Inv(s: System) {
    && s.handlers.Keys == s.rows.Keys
    && forall id :: id in s.handlers ==> HandlerInv(s.rows[id], s.handlers[id])
  }

  lemma StepKeepsInv(s: System, step: Step, s': System)
    requires Inv(s) && Leads(s, step, s')
    ensures Inv(s')
  {
    assert s'.handlers.Keys == s'.rows.Keys;
    forall id | id in s'.handlers ensures HandlerInv(s'.rows[id], s'.handlers[id]) {
      if step.id == id && !step.Start? {
        assert HandlerInv(s.rows[id], s.handlers[id]);
      }
    }
  }

  lemma {:induction false} RunKeepsInv(s: System, steps: seq<Step>, s': System)
    requires Inv(s) && Run(s, steps, s')
    ensures Inv(s')
    decreases |steps|
  {
    if steps != [] {
      StepKeepsInv(s, steps[0], Apply(s, steps[0]));
      RunKeepsInv(Apply(s, steps[0]), steps[1..], s');
    }
  }

  /** A decided request never becomes pending again, and a told handler's agent is
      never told anything else. */
  lemma {:induction false} DecidedForGood(s: System, steps: seq<Step>, s': System, id: Id)
    requires Inv(s) && Run(s, steps, s') && id in s.rows
    ensures id in s'.rows && id in s'.handlers
    ensures !s.rows[id].status.Pending? ==> !s'.rows[id].status.Pending?
    ensures !s.rows[id].status.Pending? ==> s'.handlers[id].accepted == s.handlers[id].accepted
    ensures s.handlers[id].phase.Told? ==> s'.handlers[id] == s.handlers[id] && s'.rows[id] == s.rows[id]
    decreases |steps|
  {
    if steps != [] {
      var next := Apply(s, steps[0]);
      StepKeepsInv(s, steps[0], next);
      OneStepDecided(s, steps[0], next, id);
      DecidedForGood(next, steps[1..], s', id);
    }
  }

  lemma OneStepDecided(s: System, step: Step, s': System, id: Id)
    requires Inv(s) && Leads(s, step, s') && id in s.rows
    ensures id in s'.rows && id in s'.handlers
    ensures !s.rows[id].status.Pending? ==> !s'.rows[id].status.Pending?
    ensures !s.rows[id].status.Pending? ==> s'.handlers[id].accepted == s.handlers[id].accepted
    ensures s.handlers[id].phase.Told? ==> s'.handlers[id] == s.handlers[id] && s'.rows[id] == s.rows[id]
  {
    assert HandlerInv(s.rows[id], s.handlers[id]);
  }

  /** Over every interleaving of handlers, answers and deadlines: at most one
      answer is accepted per request; the agent is told Selected(o) exactly when an
      uncancelled answer carrying o had been accepted before the handler's last
      poll; and once it is told, the row is approved exactly when it was told
      Selected. */
  lemma {:induction false} ProtocolSafety(steps: seq<Step>, s: System, id: Id)
    requires Run(NO_REQUESTS, steps, s) && id in s.handlers
    ensures var h := s.handlers[id];
      && id in s.rows
      && |h.accepted| <= 1
      && (h.phase.Told? ==>
            && (forall o :: h.phase.outcome == Selected(o) <==> h.heard == [Answer(Some(o), false)])
            && (h.heard != [] ==> h.heard == h.accepted)
            && !s.rows[id].status.Pending?
            && (s.rows[id].status.Approved? <==> h.phase.outcome.Selected?))
  {
    RunKeepsInv(NO_REQUESTS, steps, s);
    assert HandlerInv(s.rows[id], s.handlers[id]);
  }

  /** What the agent is to be told of an answer. */
  predicate Heeded(answer: Answer, outcome: Outcome) {
    if !answer.cancel && answer.option.Some? then outcome == Selected(answer.option.value)
    else outcome == CancelledOutcome
  }

  /** The handler is about to poll, or has taken the answer up. */
  predicate TakesUp(h: Handler, answer: Answer) {
    && h.accepted == [answer]
    && match h.phase
       case Polling => true
       case SawPending => false
       case HasDecision(d) => Heeded(answer, OutcomeOf(d))
       case WroteDecision(d) => Heeded(answer, OutcomeOf(d))
       case Told(o) => Heeded(answer, o)
  }

  lemma StepTakesUp(s: System, step: Step, s': System, id: Id, answer: Answer)
    requires Inv(s) && Leads(s, step, s') && id in s.handlers && TakesUp(s.handlers[id], answer)
    ensures id in s'.handlers && TakesUp(s'.handlers[id], answer)
  {
    assert HandlerInv(s.rows[id], s.handlers[id]);
  }

  /** An answer accepted while the handler is about to poll is never lost: whatever
      happens afterwards, the agent is told that answer, and the row says so. */
  lemma {:induction false} InTimeIsHeeded(before: seq<Step>, s: System, steps: seq<Step>, s': System, id: Id,
                                          answer: Answer)
    requires Run(NO_REQUESTS, before, s) && Run(s, steps, s')
    requires id in s.handlers && s.handlers[id].phase == Polling && s.handlers[id].accepted == [answer]
    ensures id in s'.handlers && id in s'.rows && s'.handlers[id].accepted == [answer]
    ensures s'.handlers[id].phase.Told? ==>
      && s'.handlers[id].phase.outcome == (if !answer.cancel && answer.option.Some? then Selected(answer.option.value)
                                           else CancelledOutcome)
      && s'.rows[id].status == (if !answer.cancel && answer.option.Some? then Approved else Cancelled)
  {
    RunKeepsInv(NO_REQUESTS, before, s);
    RunTakesUp(s, steps, s', id, answer);
    RunKeepsInv(s, steps, s');
    assert HandlerInv(s'.rows[id], s'.handlers[id]);
  }

  lemma {:induction false} RunTakesUp(s: System, steps: seq<Step>, s': System, id: Id, answer: Answer)
    requires Inv(s) && Run(s, steps, s') && id in s.handlers && TakesUp(s.handlers[id], answer)
    ensures id in s'.handlers && TakesUp(s'.handlers[id], answer)
    decreases |steps|
  {
    if steps != [] {
      var next := Apply(s, steps[0]);
      StepKeepsInv(s, steps[0], next);
      StepTakesUp(s, steps[0], next, id, answer);
      RunTakesUp(next, steps[1..], s', id, answer);
    }
  }

  /** A request is answered by the first answer that finds it pending. */
  lemma {:induction false} FirstAnswerCounts(steps: seq<Step>, s: System, id: Id, option: Option<string>, cancel: bool)
    requires Run(NO_REQUESTS, steps, s) && id in s.rows && s.rows[id].status == Pending
    ensures var s' := Apply(s, Respond(id, option, cancel));
      && id in s'.handlers && id in s'.rows && s'.handlers[id].accepted == [Answer(option, cancel)]
      && s'.handlers[id].phase == s.handlers[id].phase
      && s'.rows[id].status == (if cancel then Cancelled else Approved) && s'.rows[id].decisionOptionId == option
      && OthersKept(s.rows, s'.rows, id)
    ensures var phase := s.handlers[id].phase;
      phase.Polling? || phase.SawPending? || phase == HasDecision(None)
  {
    RunKeepsInv(NO_REQUESTS, steps, s);
    assert HandlerInv(s.rows[id], s.handlers[id]);
  }

  /** An accepted approval can still be lost: it arrives after the handler's last
      poll, the deadline passes, and the unconditional write cancels it. */
  lemma ApprovalCanBeLost(id: Id, option: string) returns (steps: seq<Step>, s: System)
    ensures Run(NO_REQUESTS, steps, s) && id in s.handlers && id in s.rows
    ensures s.handlers[id].accepted == [Answer(Some(option), false)]
    ensures s.handlers[id].phase == Told(CancelledOutcome)
    ensures s.rows[id].status.Cancelled?
  {
    var s1 := Apply(NO_REQUESTS, Start(id, "c", "t", "[]"));
    var s2 := Apply(s1, Poll(id));
    var s3 := Apply(s2, Respond(id, Some(option), false));
    var s4 := Apply(s3, PassDeadline(id));
    var s5 := Apply(s4, WriteDecision(id));
    s := Apply(s5, TellAgent(id));
    assert Run(s, [], s);
    Prefixed(s5, TellAgent(id), [], s);
    Prefixed(s4, WriteDecision(id), [TellAgent(id)], s);
    Prefixed(s3, PassDeadline(id), [WriteDecision(id), TellAgent(id)], s);
    Prefixed(s2, Respond(id, Some(option), false), [PassDeadline(id), WriteDecision(id), TellAgent(id)], s);
    var tail := [Respond(id, Some(option), false)] + [PassDeadline(id), WriteDecision(id), TellAgent(id)];
    Prefixed(s1, Poll(id), tail, s);
    Prefixed(NO_REQUESTS, Start(id, "c", "t", "[]"), [Poll(id)] + tail, s);
    steps := [Start(id, "c", "t", "[]")] + ([Poll(id)] + tail);
  }

  /** So can one that arrives in time but names no option: it is accepted and marks
      the row approved, and the handler, having no option to select, cancels it. */
  lemma ApprovalWithoutOption(id: Id) returns (steps: seq<Step>, s: System)
    ensures Run(NO_REQUESTS, steps, s) && id in s.handlers && id in s.rows
    ensures s.handlers[id].accepted == [Answer(None, false)] && s.handlers[id].heard == [Answer(None, false)]
    ensures s.handlers[id].phase == Told(CancelledOutcome)
    ensures s.rows[id].status.Cancelled?
  {
    var start, answer := Start(id, "c", "t", "[]"), Respond(id, None, false);
    var s1 := Apply(NO_REQUESTS, start);
    var s2 := Apply(s1, answer);
    var s3 := Apply(s2, Poll(id));
    var s4 := Apply(s3, WriteDecision(id));
    s := Apply(s4, TellAgent(id));
    Prefixed(s4, TellAgent(id), [], s);
    Prefixed(s3, WriteDecision(id), [TellAgent(id)], s);
    var tail := [WriteDecision(id)] + [TellAgent(id)];
    Prefixed(s2, Poll(id), tail, s);
    Prefixed(s1, answer, [Poll(id)] + tail, s);
    Prefixed(NO_REQUESTS, start, [answer] + ([Poll(id)] + tail), s);
    steps := [start] + ([answer] + ([Poll(id)] + tail));
  }

  lemma {:induction false} Prefixed(s: System, step: Step, steps: seq<Step>, s': System)
    requires Enabled(s, step) && Run(Apply(s, step), steps, s')
    ensures Run(s, [step] + steps, s')
  {
    assert ([step] + steps)[1..] == steps;
  }
}
