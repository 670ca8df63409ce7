/** Routing of prompts to workers: the shared conversation map, changed under a
    lock by lookups, evictions, inserts, watchers and shutdown, interleaved in any
    way (crates/copenai-acp/src/supervisor.rs). */
module Supervisor {
  import opened Wrappers
  import opened Sequences

  type WorkerId = nat
  type CallId = nat

  datatype ActiveConversation = ActiveConversation(worker: WorkerId, model: string)

  type Conversations = map<string, ActiveConversation>

  // ---- The critical sections ----

  datatype Found = Hit(active: ActiveConversation) | OtherModel | Absent

  function Find(conversations: Conversations, conversation: string, model: string): Found {
    if conversation !in conversations then Absent
    else if conversations[conversation].model != model then OtherModel
    else Hit(conversations[conversation])
  }

  function Without(conversations: Conversations, conversation: string): Conversations {
    conversations - {conversation}
  }

  function With(conversations: Conversations, conversation: string, active: ActiveConversation): Conversations {
    conversations[conversation := active]
  }

  /** The worker an eviction shuts down. */
  function EvictedWorker(conversations: Conversations, conversation: string): Option<WorkerId> {
    if conversation in conversations then Some(conversations[conversation].worker) else None
  }

  function AllWorkers(conversations: Conversations): set<WorkerId> {
    set c | c in conversations :: conversations[c].worker
  }

  /** Only the entry of this conversation may have changed. */
  ghost predicate OthersKept(before: Conversations, after: Conversations, conversation: string) {
    forall c :: c != conversation ==> (c in before <==> c in after) && (c in before ==> after[c] == before[c])
  }

  class ConversationSupervisor {
    var conversations: Conversations

    constructor ()
      ensures conversations == map[]
    {
      conversations := map[];
    }

    method Lookup(conversation: string, model: string) returns (found: Found)
      ensures found == Find(conversations, conversation, model)
      ensures found.Hit? <==> conversation in conversations && conversations[conversation].model == model
      ensures found.Hit? ==> found.active == conversations[conversation]
      ensures found.Absent? <==> conversation !in conversations
    {
      if conversation in conversations {
        var active := conversations[conversation];
        if active.model != model {
          return OtherModel;
        }
        return Hit(active);
      }
      return Absent;
    }

    /** Whatever entry is there now goes, whoever put it there. */
    method Evict(conversation: string) returns (shutDown: Option<WorkerId>)
      modifies this
      ensures conversations == Without(old(conversations), conversation)
      ensures shutDown == EvictedWorker(old(conversations), conversation)
      ensures conversation !in conversations && OthersKept(old(conversations), conversations, conversation)
      ensures shutDown.Some? <==> conversation in old(conversations)
      ensures shutDown.Some? ==> shutDown.value == old(conversations)[conversation].worker
    {
      shutDown := None;
      if conversation in conversations {
        shutDown := Some(conversations[conversation].worker);
        conversations := conversations - {conversation};
      } else {
        assert conversations - {conversation} == conversations;
      }
    }

    method Insert(conversation: string, active: ActiveConversation)
      modifies this
      ensures conversations == With(old(conversations), conversation, active)
      ensures conversation in conversations && conversations[conversation] == active
      ensures OthersKept(old(conversations), conversations, conversation)
    {
      conversations := conversations[conversation := active];
    }

    /** A watcher removes by key only. */
    method RemoveClosed(conversation: string)
      modifies this
      ensures conversations == Without(old(conversations), conversation)
      ensures conversation !in conversations && OthersKept(old(conversations), conversations, conversation)
    {
      conversations := conversations - {conversation};
    }

    method ShutdownAll() returns (shutDown: set<WorkerId>)
      modifies this
      ensures conversations == map[]
      ensures shutDown == AllWorkers(old(conversations))
      ensures forall c :: c in old(conversations) ==> old(conversations)[c].worker in shutDown
      ensures forall w :: w in shutDown ==> exists c :: c in old(conversations) && old(conversations)[c].worker == w
    {
      shutDown := set c | c in conversations :: conversations[c].worker;
      conversations := map[];
    }
  }

  // ---- The protocol ----

  datatype Command = Prompt(call: CallId, conversation: string, model: string) | Shutdown

  /** open says whether the command channel still takes commands. */
  datatype Worker = Worker(conversation: string, model: string, open: bool, inbox: seq<Command>)

  datatype Phase =
    | Looking
    | Evicting
    | Starting
    | Spawned(worker: WorkerId)
    | Holding(handle: ActiveConversation)
    | Finished(delivered: Option<WorkerId>)

  /** One send_prompt in progress. */
  datatype Call = Call(conversation: string, model: string, phase: Phase)

  datatype System = System(conversations: Conversations, workers: map<WorkerId, Worker>,
                           calls: map<CallId, Call>, watched: set<WorkerId>)

  const NOTHING_STARTED := System(map[], map[], map[], {})

  datatype Step =
    | Arrive(call: CallId, conversation: string, model: string)
    | LookUp(call: CallId)
    | EvictOther(call: CallId)
    | GiveUp(call: CallId)
    | SpawnWorker(call: CallId, worker: WorkerId)
    | InsertEntry(call: CallId)
    | Deliver(call: CallId)
    | CloseWorker(worker: WorkerId)
    | WatcherRemoves(worker: WorkerId)
    | ShutAllDown

  predicate Enabled(s: System, step: Step) {
    match step
    case Arrive(c, _, _) => c !in s.calls
    case LookUp(c) => c in s.calls && s.calls[c].phase.Looking?
    case EvictOther(c) => c in s.calls && s.calls[c].phase.Evicting?
    case GiveUp(c) => c in s.calls && s.calls[c].phase.Starting?
    case SpawnWorker(c, w) => c in s.calls && s.calls[c].phase.Starting? && w !in s.workers
    case InsertEntry(c) => c in s.calls && s.calls[c].phase.Spawned?
    case Deliver(c) => c in s.calls && s.calls[c].phase.Holding?
    case CloseWorker(w) => w in s.workers
    case WatcherRemoves(w) => w in s.watched && w in s.workers && !s.workers[w].open
    case ShutAllDown => true
  }

  /** A command reaches an open worker's inbox; a closed channel refuses it. */
  function Send(workers: map<WorkerId, Worker>, w: WorkerId, command: Command): map<WorkerId, Worker> {
    if w in workers && workers[w].open then workers[w := workers[w].(inbox := workers[w].inbox + [command])]
    else workers
  }

  function SendAll(workers: map<WorkerId, Worker>, targets: set<WorkerId>, command: Command): map<WorkerId, Worker> {
    map w | w in workers ::
      if w in targets && workers[w].open then workers[w].(inbox := workers[w].inbox + [command]) else workers[w]
  }

  function Moved(s: System, c: CallId, phase: Phase): map<CallId, Call>
    requires c in s.calls
  {
    s.calls[c := s.calls[c].(phase := phase)]
  }

  function Apply(s: System, step: Step): System
    requires Enabled(s, step)
  {
    match step
    case Arrive(c, conversation, model) => s.(calls := s.calls[c := Call(conversation, model, Looking)])
    case LookUp(c) =>
      (match Find(s.conversations, s.calls[c].conversation, s.calls[c].model)
       case Hit(active) => s.(calls := Moved(s, c, Holding(active)))
       case OtherModel => s.(calls := Moved(s, c, Evicting))
       case Absent => s.(calls := Moved(s, c, Starting)))
    case EvictOther(c) =>
      var key := s.calls[c].conversation;
      var evicted := EvictedWorker(s.conversations, key);
      s.(conversations := Without(s.conversations, key),
         workers := if evicted.Some? then Send(s.workers, evicted.value, Shutdown) else s.workers,
         calls := Moved(s, c, Starting))
    case GiveUp(c) => s.(calls := Moved(s, c, Finished(None)))
    case SpawnWorker(c, w) =>
      s.(workers := s.workers[w := Worker(s.calls[c].conversation, s.calls[c].model, true, [])],
         watched := s.watched + {w},
         calls := Moved(s, c, Spawned(w)))
    case InsertEntry(c) =>
      var active := ActiveConversation(s.calls[c].phase.worker, s.calls[c].model);
      s.(conversations := With(s.conversations, s.calls[c].conversation, active),
         calls := Moved(s, c, Holding(active)))
    case Deliver(c) =>
      var w := s.calls[c].phase.handle.worker;
      var accepted := w in s.workers && s.workers[w].open;
      s.(workers := Send(s.workers, w, Prompt(c, s.calls[c].conversation, s.calls[c].model)),
         calls := Moved(s, c, Finished(if accepted then Some(w) else None)))
    case CloseWorker(w) => s.(workers := s.workers[w := s.workers[w].(open := false)])
    case WatcherRemoves(w) =>
      s.(conversations := Without(s.conversations, s.workers[w].conversation), watched := s.watched - {w})
    case ShutAllDown =>
      s.(conversations := map[], workers := SendAll(s.workers, AllWorkers(s.conversations), Shutdown))
  }

  ghost predicate Leads(s: System, step: Step, s': System) {
    Enabled(s, step) && s' == Apply(s, step)
  }

  ghost predicate Reaches(steps: seq<Step>, s: System) {
    if steps == [] then s == NOTHING_STARTED
    else
      var front, last := steps[..|steps| - 1], steps[|steps| - 1];
      exists before :: Reaches(front, before) && Leads(before, last, s)
  }

  // ---- Routing safety ----

  /** w was started for this conversation and this model. */
  predicate StartedFor(s: System, w: WorkerId, conversation: string, model: string) {
    w in s.workers && s.workers[w].conversation == conversation && s.workers[w].model == model
  }

  ghost predicate EntriesRight(s: System) {
    forall c :: c in s.conversations ==> StartedFor(s, s.conversations[c].worker, c, s.conversations[c].model)
  }

  predicate CallRight(s: System, call: Call) {
    match call.phase
    case Spawned(w) => StartedFor(s, w, call.conversation, call.model)
    case Holding(h) => h.model == call.model && StartedFor(s, h.worker, call.conversation, call.model)
    case Finished(Some(w)) => StartedFor(s, w, call.conversation, call.model)
    case _ => true
  }

  ghost predicate HandlesRight(s: System) {
    forall c :: c in s.calls ==> CallRight(s, s.calls[c])
  }

  /** What of call c is in a worker's inbox. */
  function PromptsOf(inbox: seq<Command>, c: CallId): seq<Command> {
    if inbox == [] then [] else
      var last := inbox[|inbox| - 1];
      PromptsOf(inbox[..|inbox| - 1], c) + (if last.Prompt? && last.call == c then [last] else [])
  }

  function Expected(s: System, w: WorkerId, c: CallId): seq<Command> {
    if c in s.calls && s.calls[c].phase == Finished(Some(w))
    then [Prompt(c, s.calls[c].conversation, s.calls[c].model)] else []
  }

  /** Every inbox holds, of every call, exactly the one prompt delivered to it. */
  ghost predicate InboxesRight(s: System) {
    forall w, c :: w in s.workers ==> PromptsOf(s.workers[w].inbox, c) == Expected(s, w, c)
  }

  ghost predicate Inv(s: System) {
    EntriesRight(s) && HandlesRight(s) && InboxesRight(s)
  }

  lemma {:induction false} PromptsSnoc(inbox: seq<Command>, last: Command, c: CallId)
    ensures PromptsOf(inbox + [last], c)
         == PromptsOf(inbox, c) + (if last.Prompt? && last.call == c then [last] else [])
  {
    assert (inbox + [last])[..|inbox|] == inbox;
  }

  /** Workers never change what they were started for, and are never forgotten. */
  lemma WorkersStay(s: System, step: Step, s': System)
    requires Leads(s, step, s')
    ensures forall w, conversation, model ::
              StartedFor(s, w, conversation, model) ==> StartedFor(s', w, conversation, model)
  {
  }

  lemma StepEntries(s: System, step: Step, s': System)
    requires EntriesRight(s) && HandlesRight(s) && Leads(s, step, s')
    ensures EntriesRight(s')
  {
    WorkersStay(s, step, s');
    forall c | c in s'.conversations
      ensures StartedFor(s', s'.conversations[c].worker, c, s'.conversations[c].model)
    {
      if step.InsertEntry? {
        assert CallRight(s, s.calls[step.call]);
      }
    }
  }

  lemma StepHandles(s: System, step: Step, s': System)
    requires EntriesRight(s) && HandlesRight(s) && Leads(s, step, s')
    ensures HandlesRight(s')
  {
    WorkersStay(s, step, s');
    forall c | c in s'.calls ensures CallRight(s', s'.calls[c]) {
      if c in s.calls {
        assert CallRight(s, s.calls[c]);
      }
    }
  }

  lemma StepInboxes(s: System, step: Step, s': System)
    requires Inv(s) && Leads(s, step, s')
    ensures InboxesRight(s')
  {
    forall w, c | w in s'.workers ensures PromptsOf(s'.workers[w].inbox, c) == Expected(s', w, c) {
      OneInbox(s, step, s', w, c);
    }
  }

  lemma {:induction false} OneInbox(s: System, step: Step, s': System, w: WorkerId, c: CallId)
    requires Inv(s) && Leads(s, step, s') && w in s'.workers
    ensures PromptsOf(s'.workers[w].inbox, c) == Expected(s', w, c)
  {
    hide PromptsOf, EntriesRight;
    if w in s.workers {
      assert PromptsOf(s.workers[w].inbox, c) == Expected(s, w, c);
      PromptsSnoc(s.workers[w].inbox, Shutdown, c);
      if step.Deliver? {
        var call := s.calls[step.call];
        PromptsSnoc(s.workers[w].inbox, Prompt(step.call, call.conversation, call.model), c);
      }
    } else {
      NewWorkerUnaddressed(s, step, s', w, c);
    }
  }

  lemma {:induction false} NewWorkerUnaddressed(s: System, step: Step, s': System, w: WorkerId, c: CallId)
    requires HandlesRight(s) && Leads(s, step, s') && w in s'.workers && w !in s.workers
    ensures PromptsOf(s'.workers[w].inbox, c) == [] && Expected(s', w, c) == []
  {
    assert c in s.calls ==> CallRight(s, s.calls[c]);
  }

  lemma {:induction false} RunsKeepInv(steps: seq<Step>, s: System)
    requires Reaches(steps, s)
    ensures Inv(s)
  {
    if steps != [] {
      hide Leads, EntriesRight, HandlesRight, InboxesRight;
      var front, last := steps[..|steps| - 1], steps[|steps| - 1];
      var before :| Reaches(front, before) && Leads(before, last, s);
      RunsKeepInv(front, before);
      StepEntries(before, last, s);
      StepHandles(before, last, s);
      StepInboxes(before, last, s);
    } else {
      assert Inv(NOTHING_STARTED);
    }
  }

  lemma {:induction false} PromptInInbox(inbox: seq<Command>, c: CallId, p: Command)
    requires p in inbox && p.Prompt? && p.call == c
    ensures p in PromptsOf(inbox, c)
  {
    var n := |inbox| - 1;
    if inbox[n] != p {
      assert p in inbox[..n];
      PromptInInbox(inbox[..n], c, p);
    }
  }

  lemma EntryRight(s: System, c: string)
    requires Inv(s) && c in s.conversations
    ensures StartedFor(s, s.conversations[c].worker, c, s.conversations[c].model)
  {
    hide HandlesRight, InboxesRight;
  }

  lemma HandleRight(s: System, c: CallId)
    requires Inv(s) && c in s.calls && s.calls[c].phase.Holding?
    ensures StartedFor(s, s.calls[c].phase.handle.worker, s.calls[c].conversation, s.calls[c].model)
  {
    hide EntriesRight, InboxesRight;
    assert CallRight(s, s.calls[c]);
  }

  lemma DeliveredOnce(s: System, w: WorkerId, p: Command)
    requires Inv(s) && w in s.workers && p in s.workers[w].inbox && p.Prompt?
    ensures p.conversation == s.workers[w].conversation && p.model == s.workers[w].model
    ensures p.call in s.calls && s.calls[p.call].phase == Finished(Some(w))
    ensures PromptsOf(s.workers[w].inbox, p.call) == [p]
  {
    hide PromptsOf;
    PromptInInbox(s.workers[w].inbox, p.call, p);
    assert PromptsOf(s.workers[w].inbox, p.call) == Expected(s, w, p.call);
    assert CallRight(s, s.calls[p.call]);
  }

  lemma {:induction false} DeliveredThere(s: System, c: CallId, w: WorkerId)
    requires Inv(s) && c in s.calls && s.calls[c].phase == Finished(Some(w))
    ensures w in s.workers && PromptsOf(s.workers[w].inbox, c) == [Prompt(c, s.calls[c].conversation, s.calls[c].model)]
  {
    hide PromptsOf;
    assert CallRight(s, s.calls[c]);
    assert PromptsOf(s.workers[w].inbox, c) == Expected(s, w, c);
  }

  /** Whatever the interleaving: every map entry and every handle given out names a
      worker started for that conversation and that model; and every prompt in an
      inbox comes from a call for that worker's conversation and model, which
      delivered it there and nowhere else, once. */
  lemma {:induction false} RoutingSafety(steps: seq<Step>, s: System)
    requires Reaches(steps, s)
    ensures forall c :: c in s.conversations ==> StartedFor(s, s.conversations[c].worker, c, s.conversations[c].model)
    ensures forall c :: c in s.calls && s.calls[c].phase.Holding? ==>
              StartedFor(s, s.calls[c].phase.handle.worker, s.calls[c].conversation, s.calls[c].model)
    ensures forall w, p :: w in s.workers && p in s.workers[w].inbox && p.Prompt? ==>
              && p.conversation == s.workers[w].conversation && p.model == s.workers[w].model
              && p.call in s.calls && s.calls[p.call].phase == Finished(Some(w))
              && PromptsOf(s.workers[w].inbox, p.call) == [p]
    ensures forall c, w :: c in s.calls && s.calls[c].phase == Finished(Some(w)) ==>
              w in s.workers && PromptsOf(s.workers[w].inbox, c)
                == [Prompt(c, s.calls[c].conversation, s.calls[c].model)]
  {
    hide Reaches, Inv, PromptsOf, StartedFor;
    RunsKeepInv(steps, s);
    forall c | c in s.conversations
      ensures StartedFor(s, s.conversations[c].worker, c, s.conversations[c].model)
    {
      EntryRight(s, c);
    }
    forall c | c in s.calls && s.calls[c].phase.Holding?
      ensures StartedFor(s, s.calls[c].phase.handle.worker, s.calls[c].conversation, s.calls[c].model)
    {
      HandleRight(s, c);
    }
    forall w, p | w in s.workers && p in s.workers[w].inbox && p.Prompt?
      ensures p.conversation == s.workers[w].conversation && p.model == s.workers[w].model
      ensures p.call in s.calls && s.calls[p.call].phase == Finished(Some(w))
      ensures PromptsOf(s.workers[w].inbox, p.call) == [p]
    {
      DeliveredOnce(s, w, p);
    }
    forall c, w | c in s.calls && s.calls[c].phase == Finished(Some(w))
      ensures w in s.workers && PromptsOf(s.workers[w].inbox, c)
          == [Prompt(c, s.calls[c].conversation, s.calls[c].model)]
    {
      DeliveredThere(s, c, w);
    }
  }

  // ---- What each step does to entries and inboxes ----

  /** Nothing but a shutdown command was sent, to exactly these workers, and only
      where the channel was open. */
  ghost predicate ShutDown(s: System, s': System, targets: set<WorkerId>) {
    && s'.workers.Keys == s.workers.Keys
    && forall w :: w in s.workers ==>
         s'.workers[w] == s.workers[w].(inbox :=
           if w in targets && s.workers[w].open then s.workers[w].inbox + [Shutdown] else s.workers[w].inbox)
  }

  /** A call finds the worker of its conversation and uses it again, unless that
      worker was started for another model, which the call then evicts. */
  lemma LookUpReuses(s: System, c: CallId, s': System)
    requires Leads(s, LookUp(c), s')
    ensures var call := s.calls[c];
      && s' == s.(calls := s'.calls)
      && s'.calls == s.calls[c := Call(call.conversation, call.model, s'.calls[c].phase)]
      && (if call.conversation in s.conversations && s.conversations[call.conversation].model == call.model
          then s'.calls[c].phase == Holding(s.conversations[call.conversation])
          else if call.conversation in s.conversations then s'.calls[c].phase == Evicting
          else s'.calls[c].phase == Starting)
  {
  }

  /** An eviction takes out the entry of its conversation alone and tells its worker
      to shut down; a shutdown takes out all of them and tells every worker. */
  lemma {:induction false} RemovedAreTold(steps: seq<Step>, s: System, step: Step, s': System)
    requires Reaches(steps, s) && Leads(s, step, s')
    ensures step.EvictOther? ==>
      var key := s.calls[step.call].conversation;
      && key !in s'.conversations && OthersKept(s.conversations, s'.conversations, key)
      && s'.calls[step.call].phase == Starting
      && ShutDown(s, s', if key in s.conversations then {s.conversations[key].worker} else {})
    ensures step.ShutAllDown? ==>
      && s'.conversations == map[] && s'.calls == s.calls
      && ShutDown(s, s', set c | c in s.conversations :: s.conversations[c].worker)
  {
    RunsKeepInv(steps, s);
    hide Reaches, HandlesRight, InboxesRight;
    if step.EvictOther? {
      EvictTells(s, step.call, s');
    }
  }

  /** A prompt reaches the worker whose handle the call holds as long as its channel
      is open, and fails otherwise. */
  lemma {:induction false} DeliverReaches(steps: seq<Step>, s: System, c: CallId, s': System)
    requires Reaches(steps, s) && Leads(s, Deliver(c), s')
    ensures var call, w := s.calls[c], s.calls[c].phase.handle.worker;
      && w in s.workers && s'.conversations == s.conversations
      && (s.workers[w].open ==>
            && s'.calls[c].phase == Finished(Some(w))
            && s'.workers == s.workers[w := s.workers[w].(inbox := s.workers[w].inbox
                                                                  + [Prompt(c, call.conversation, call.model)])])
      && (!s.workers[w].open ==> s'.calls[c].phase == Finished(None) && s'.workers == s.workers)
  {
    RunsKeepInv(steps, s);
    hide Reaches, EntriesRight, InboxesRight;
    assert CallRight(s, s.calls[c]);
  }

  lemma EvictTells(s: System, c: CallId, s': System)
    requires EntriesRight(s) && Leads(s, EvictOther(c), s')
    ensures var key := s.calls[c].conversation;
      && key !in s'.conversations && OthersKept(s.conversations, s'.conversations, key)
      && s'.calls[c].phase == Starting
      && ShutDown(s, s', if key in s.conversations then {s.conversations[key].worker} else {})
  {
  }

  /** The entry of this worker's conversation names it. */
  predicate Listed(s: System, w: WorkerId) {
    && w in s.workers && s.workers[w].conversation in s.conversations
    && s.conversations[s.workers[w].conversation].worker == w
  }

  /** The step takes the worker's entry away for another one: an insert that replaces
      it, or a watcher that removes by key. */
  predicate Displaces(s: System, step: Step, w: WorkerId)
    requires Enabled(s, step)
  {
    && Listed(s, w)
    && match step
       case InsertEntry(c) =>
         s.calls[c].conversation == s.workers[w].conversation && s.calls[c].phase.worker != w
       case WatcherRemoves(v) => s.workers[v].conversation == s.workers[w].conversation && v != w
       case _ => false
  }

  ghost predicate Displaced(steps: seq<Step>, w: WorkerId) {
    steps != [] &&
      var front, last := steps[..|steps| - 1], steps[|steps| - 1];
      (Displaced(front, w) || exists before :: Reaches(front, before) && Enabled(before, last)
                                               && Displaces(before, last, w))
  }

  /** A call has started the worker and not yet listed it. */
  ghost predicate BeingListed(s: System, w: WorkerId) {
    exists c :: c in s.calls && s.calls[c].phase == Spawned(w)
  }

  ghost predicate Accounted(steps: seq<Step>, s: System, w: WorkerId)
    requires w in s.workers
  {
    || !s.workers[w].open || Listed(s, w) || BeingListed(s, w)
    || Shutdown in s.workers[w].inbox || Displaced(steps, w)
  }

  /** Every open worker is listed, or about to be, or has been told to shut down,
      unless a second start or a watcher of the same conversation displaced it. */
  lemma {:induction false} NoWorkerForgotten(steps: seq<Step>, s: System, w: WorkerId)
    requires Reaches(steps, s) && w in s.workers
    ensures s.workers[w].open ==>
      || Listed(s, w) || BeingListed(s, w) || Shutdown in s.workers[w].inbox || Displaced(steps, w)
  {
    if steps != [] {
      var front, last := steps[..|steps| - 1], steps[|steps| - 1];
      var before :| Reaches(front, before) && Leads(before, last, s);
      if w in before.workers {
        NoWorkerForgotten(front, before, w);
        RunsKeepInv(front, before);
        hide Reaches, Inv;
        StillAccounted(steps, before, last, s, w);
      } else {
        assert s.calls[last.call].phase == Spawned(w);
      }
    }
  }

  lemma {:induction false} StillAccounted(steps: seq<Step>, before: System, last: Step, s: System, w: WorkerId)
    requires steps != [] && last == steps[|steps| - 1] && Reaches(steps[..|steps| - 1], before)
    requires Leads(before, last, s) && Inv(before) && w in before.workers && w in s.workers
    requires Accounted(steps[..|steps| - 1], before, w)
    ensures Accounted(steps, s, w)
  {
    hide Reaches, EntriesRight, InboxesRight;
    var conversation := before.workers[w].conversation;
    if last.InsertEntry? && before.calls[last.call].phase == Spawned(w) {
      assert CallRight(before, before.calls[last.call]);
    } else if BeingListed(before, w) {
      var c :| c in before.calls && before.calls[c].phase == Spawned(w);
      assert s.calls[c].phase == Spawned(w);
    } else if Listed(before, w) && Displaces(before, last, w) {
      assert Displaced(steps, w);
    }
  }

  lemma Extends(steps: seq<Step>, s: System, step: Step) returns (s': System)
    requires Reaches(steps, s) && Enabled(s, step)
    ensures s' == Apply(s, step) && Reaches(steps + [step], s')
  {
    s' := Apply(s, step);
    assert (steps + [step])[..|steps|] == steps;
    assert Leads(s, step, s');
  }

  /** Two prompts of one new conversation that come together start two workers. The
      first stays open, is listed nowhere and has not been told to shut down. */
  lemma TwoStarts(conversation: string, model: string) returns (steps: seq<Step>, s: System)
    ensures Reaches(steps, s)
    ensures StartedFor(s, 0, conversation, model) && StartedFor(s, 1, conversation, model)
    ensures s.workers[0].open && s.workers[1].open && Listed(s, 1)
    ensures !Listed(s, 0) && !BeingListed(s, 0) && Shutdown !in s.workers[0].inbox
  {
    hide Reaches;
    assert Reaches([], NOTHING_STARTED) by { NothingYet(); }
    s := Extends([], NOTHING_STARTED, Arrive(0, conversation, model));
    steps := [] + [Arrive(0, conversation, model)];
    s := Extends(steps, s, Arrive(1, conversation, model));
    steps := steps + [Arrive(1, conversation, model)];
    s := Extends(steps, s, LookUp(0));
    steps := steps + [LookUp(0)];
    s := Extends(steps, s, LookUp(1));
    steps := steps + [LookUp(1)];
    s := Extends(steps, s, SpawnWorker(0, 0));
    steps := steps + [SpawnWorker(0, 0)];
    s := Extends(steps, s, SpawnWorker(1, 1));
    steps := steps + [SpawnWorker(1, 1)];
    s := Extends(steps, s, InsertEntry(0));
    steps := steps + [InsertEntry(0)];
    s := Extends(steps, s, InsertEntry(1));
    steps := steps + [InsertEntry(1)];
  }

  /** And no later step tells a worker that is not listed to shut down. */
  lemma {:induction false} UnlistedForGood(steps: seq<Step>, s: System, step: Step, s': System, w: WorkerId)
    requires Reaches(steps, s) && Leads(s, step, s')
    requires w in s.workers && !Listed(s, w) && !BeingListed(s, w)
    ensures w in s'.workers && !Listed(s', w) && !BeingListed(s', w)
    ensures Shutdown in s'.workers[w].inbox <==> Shutdown in s.workers[w].inbox
  {
    RunsKeepInv(steps, s);
    hide Reaches, InboxesRight;
    if step.InsertEntry? {
      assert CallRight(s, s.calls[step.call]);
    } else if step.EvictOther? {
      EvictTells(s, step.call, s');
    }
    UnlistedAfter(s, step, s', w);
  }

  lemma UnlistedAfter(s: System, step: Step, s': System, w: WorkerId)
    requires EntriesRight(s) && Leads(s, step, s')
    requires w in s.workers && !BeingListed(s, w)
    ensures w in s'.workers && !BeingListed(s', w)
  {
    forall c | c in s'.calls ensures s'.calls[c].phase != Spawned(w) {
    }
  }

  // ---- Entries of closed workers ----

  /** A watcher takes out the entry of its worker's conversation and is done. */
  lemma WatcherCleans(s: System, w: WorkerId, s': System)
    requires Leads(s, WatcherRemoves(w), s')
    ensures !s.workers[w].open && w !in s'.watched && s' == s.(conversations := s'.conversations, watched := s'.watched)
    ensures forall v :: v != w ==> (v in s'.watched <==> v in s.watched)
    ensures s.workers[w].conversation !in s'.conversations
    ensures OthersKept(s.conversations, s'.conversations, s.workers[w].conversation)
  {
  }

  /** The worker's watcher was done before the worker was listed. */
  ghost predicate WatchedTooEarly(steps: seq<Step>, w: WorkerId) {
    steps != [] &&
      var front, last := steps[..|steps| - 1], steps[|steps| - 1];
      || WatchedTooEarly(front, w)
      || (last == WatcherRemoves(w) && exists before :: Reaches(front, before) && BeingListed(before, w))
  }

  /** So the entry of a worker that closes is removed, since its watcher is there,
      unless the watcher came and went before the worker was listed. */
  lemma {:induction false} ListedIsWatched(steps: seq<Step>, s: System, w: WorkerId)
    requires Reaches(steps, s) && (Listed(s, w) || BeingListed(s, w))
    ensures w in s.watched || WatchedTooEarly(steps, w)
  {
    if steps != [] {
      var front, last := steps[..|steps| - 1], steps[|steps| - 1];
      var before :| Reaches(front, before) && Leads(before, last, s);
      RunsKeepInv(front, before);
      hide Reaches, Inv;
      WasListed(before, last, s, w);
      if Listed(before, w) || BeingListed(before, w) {
        ListedIsWatched(front, before, w);
      }
    }
  }

  lemma WasListed(before: System, last: Step, s: System, w: WorkerId)
    requires Leads(before, last, s) && (Listed(s, w) || BeingListed(s, w))
    ensures Listed(before, w) || BeingListed(before, w) || w in s.watched
    ensures w in before.watched ==> w in s.watched || (last == WatcherRemoves(w) && BeingListed(before, w))
  {
    if BeingListed(s, w) {
      var c :| c in s.calls && s.calls[c].phase == Spawned(w);
      assert (c in before.calls && before.calls[c].phase == Spawned(w)) || last == SpawnWorker(c, w);
    }
    if last.InsertEntry? {
      assert BeingListed(before, before.calls[last.call].phase.worker);
    }
  }

  /** A worker that closes at once, and whose watcher is faster than the insert, is
      listed though it is closed, and nobody watches it any more. */
  lemma StaleEntry(conversation: string, model: string) returns (steps: seq<Step>, s: System)
    ensures Reaches(steps, s) && StartedFor(s, 0, conversation, model)
    ensures Listed(s, 0) && !s.workers[0].open && 0 !in s.watched
  {
    hide Reaches;
    assert Reaches([], NOTHING_STARTED) by { NothingYet(); }
    s := Extends([], NOTHING_STARTED, Arrive(0, conversation, model));
    steps := [] + [Arrive(0, conversation, model)];
    s := Extends(steps, s, LookUp(0));
    steps := steps + [LookUp(0)];
    s := Extends(steps, s, SpawnWorker(0, 0));
    steps := steps + [SpawnWorker(0, 0)];
    s := Extends(steps, s, CloseWorker(0));
    steps := steps + [CloseWorker(0)];
    s := Extends(steps, s, WatcherRemoves(0));
    steps := steps + [WatcherRemoves(0)];
    s := Extends(steps, s, InsertEntry(0));
    steps := steps + [InsertEntry(0)];
  }

  /** Every later prompt of that conversation and model fails, for as long as the
      entry stands. */
  lemma {:induction false} StaleRefuses(steps: seq<Step>, s: System, c: CallId, s1: System, s2: System)
    requires Reaches(steps, s) && Leads(s, LookUp(c), s1) && Leads(s1, Deliver(c), s2)
    requires var key := s.calls[c].conversation;
      && key in s.conversations && s.conversations[key].model == s.calls[c].model
      && s.conversations[key].worker in s.workers && !s.workers[s.conversations[key].worker].open
    ensures s2.calls[c].phase == Finished(None) && s2.conversations == s.conversations && s2.workers == s.workers
  {
    assert (steps + [LookUp(c)])[..|steps|] == steps;
    assert Reaches(steps + [LookUp(c)], s1);
    hide Reaches;
    LookUpReuses(s, c, s1);
    DeliverReaches(steps + [LookUp(c)], s1, c, s2);
  }

  lemma NothingYet()
    ensures Reaches([], NOTHING_STARTED)
  {
  }
}
