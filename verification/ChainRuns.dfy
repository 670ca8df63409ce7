/** Whole runs of the response store: any number of requests, their steps
    interleaved in any way (crates/copenai-server/src/responses/orchestrator.rs,
    crates/copenai-store/src/responses.rs). */
module ChainRuns {
  import opened Wrappers
  import opened Json
  import opened Sequences
  import opened Responses
  import opened ResponseChain
  import opened Multiplicity
  import Items

  /** A walk under way: one row is read at a time, and other requests may run
      between two reads. */
  datatype Progress = Progress(current: Option<Id>, seen: set<Id>, path: seq<Id>, items: seq<Json>)

  datatype Phase = Waiting | Walking(at: Progress) | Ready | Saved | Failed

  /** One request. enriched is what its turn works with; visible remembers which
      responses were saved when it read their rows; serial orders requests by age. */
  datatype Request = Request(previous: Option<Id>, own: seq<ToolOutput>, stored: bool, phase: Phase,
                             enriched: seq<ToolOutput>, visible: set<Id>, serial: nat)

  /** named holds every id that was ever generated or mentioned. */
  datatype World = World(rows: Table, requests: map<Id, Request>, named: set<Id>, clock: nat)

  const EMPTY_WORLD := World(map[], map[], {}, 0)

  datatype Step =
    | Submit(id: Id, previous: Option<Id>, own: seq<ToolOutput>, wantsStore: bool,
             conversationId: Option<string>, model: string, toolExecution: string, now: int)
    | BeginWalk(id: Id)
    | ReadRow(id: Id)
    | FinishWalk(id: Id)
    | Persist(id: Id, status: string, output: JsonList, items: seq<Items.OutputItem>, now: int)
    | Abandon(id: Id)
    | Cancel(id: Id, now: int)

  function SavedIds(w: World): set<Id> {
    set id | id in w.requests && w.requests[id].phase.Saved?
  }

  /** The pointers end, or lead back to a row that was read. */
  predicate AtEnd(p: Progress) {
    p.current.None? || p.current.value in p.seen
  }

  /** A new response id was never named before, not even by its own request. */
  predicate Enabled(w: World, step: Step) {
    match step
    case Submit(id, previous, _, _, _, _, _, _) => id !in w.named && previous != Some(id)
    case BeginWalk(id) => id in w.requests && w.requests[id].phase.Waiting?
    case ReadRow(id) => id in w.requests && w.requests[id].phase.Walking? && !AtEnd(w.requests[id].phase.at)
    case FinishWalk(id) => id in w.requests && w.requests[id].phase.Walking? && AtEnd(w.requests[id].phase.at)
    case Persist(id, _, _, _, _) => id in w.requests && w.requests[id].phase.Ready? && w.requests[id].stored
    case Abandon(id) => id in w.requests && !w.requests[id].phase.Saved?
    case Cancel(_, _) => true
  }

  function Apply(w: World, step: Step): World
    requires Enabled(w, step)
  {
    match step
    case Submit(id, previous, own, wantsStore, conversationId, model, toolExecution, now) =>
      var stored := ShouldStore(wantsStore, previous);
      World(if stored then Created(w.rows, id, conversationId, model, toolExecution, previous, now) else w.rows,
            w.requests[id := Request(previous, own, stored, Waiting, [], {}, w.clock)],
            w.named + {id} + (if previous.Some? then {previous.value} else {}),
            w.clock + 1)
    case BeginWalk(id) =>
      var request := w.requests[id];
      w.(requests := w.requests[id := request.(phase := Walking(Progress(request.previous, {}, [], [])))])
    case ReadRow(id) =>
      var request := w.requests[id];
      var p := request.phase.at;
      var current := p.current.value;
      if current !in w.rows then w.(requests := w.requests[id := request.(phase := Failed)])
      else w.(requests := w.requests[id := request.(
                phase := Walking(Progress(w.rows[current].previousResponseId, p.seen + {current}, p.path + [current],
                                          p.items + RowItems(w.rows[current]))),
                visible := request.visible + (if current in SavedIds(w) then {current} else {}))])
    case FinishWalk(id) =>
      var request := w.requests[id];
      w.(requests := w.requests[id := request.(phase := Ready,
                                               enriched := request.own + OutputsIn(Reverse(request.phase.at.items)))])
    case Persist(id, status, output, items, now) =>
      var request := w.requests[id];
      w.(rows := Completed(w.rows, id, status, output, Some(Parsed(ChainItems(request.enriched, items))), now),
         requests := w.requests[id := request.(phase := Saved)])
    case Abandon(id) =>
      w.(requests := w.requests[id := w.requests[id].(phase := Failed)])
    case Cancel(id, now) =>
      w.(rows := Cancelled(w.rows, id, now))
  }

  /** w is what the steps make of the empty world. */
  ghost predicate Reaches(steps: seq<Step>, w: World) {
    if steps == [] then w == EMPTY_WORLD
    else
      var front, last := steps[..|steps| - 1], steps[|steps| - 1];
      exists before :: Reaches(front, before) && Leads(before, last, w)
  }

  ghost predicate Leads(before: World, step: Step, after: World) {
    Enabled(before, step) && after == Apply(before, step)
  }

  // ---- Ancestors ----

  /** The stored responses behind a request, nearest first. */
  function Ancestors(w: World, id: Id): seq<Id>
    requires id in w.requests
  {
    WalkFrom(w.rows, {}, w.requests[id].previous).path
  }

  predicate HasInherited(r: Request) {
    r.phase.Ready? || r.phase.Saved?
  }

  /** Copies of x in the enriched outputs of those on a path that are visible. */
  function InheritedCount(w: World, path: seq<Id>, visible: set<Id>, x: ToolOutput): nat
    requires forall a :: a in path ==> a in w.requests
  {
    if path == [] then 0 else
      (if path[0] in visible then Count(w.requests[path[0]].enriched, x) else 0)
      + InheritedCount(w, path[1..], visible, x)
  }

  // ---- What every step keeps ----

  ghost predicate Tracked(w: World) {
    && w.requests.Keys <= w.named
    && (forall id :: id in w.rows <==> id in w.requests && w.requests[id].stored)
    && (forall id :: id in w.rows ==> w.rows[id].previousResponseId == w.requests[id].previous)
  }

  /** Pointers go to earlier requests, or to ids that can never be created. */
  ghost predicate Backward(w: World) {
    forall id :: id in w.requests ==>
      && w.requests[id].serial < w.clock
      && (w.requests[id].previous.Some? ==>
            var p := w.requests[id].previous.value;
            p in w.named && (p in w.requests ==> w.requests[p].serial < w.requests[id].serial))
  }

  /** A row has a chain once it is saved, and then it holds what was enriched. */
  ghost predicate ChainsSaved(w: World) {
    forall id :: id in w.rows && id in w.requests ==>
      if w.requests[id].phase.Saved? then
        && w.rows[id].inputChainJson.Some? && w.rows[id].inputChainJson.value.Parsed?
        && OutputsIn(w.rows[id].inputChainJson.value.items) == w.requests[id].enriched
      else w.rows[id].inputChainJson.None? && w.rows[id].outputJson.None?
  }

  ghost predicate ViewsSaved(w: World) {
    && (forall id :: id in w.requests && w.requests[id].phase.Saved? ==> w.requests[id].stored)
    && (forall id :: id in w.requests ==> w.requests[id].visible <= SavedIds(w))
  }

  /** What is seen lies on the path read, and so does nothing that was seen from
      there and is not seen from here. */
  ghost predicate Closed(w: World, visible: set<Id>, path: seq<Id>) {
    forall a :: a in visible ==>
      && a in path && a in w.requests
      && forall b :: b in w.requests[a].visible ==> b in visible || b !in path
  }

  /** The law of a response that has inherited. */
  ghost predicate LawOf(w: World, id: Id)
    requires id in w.requests && Tracked(w)
  {
    var r := w.requests[id];
    WalkStaysInside(w.rows, {}, r.previous);
    && WalkFrom(w.rows, {}, r.previous).end.Finished?
    && (forall x :: Count(r.enriched, x) == Count(r.own, x) + InheritedCount(w, Ancestors(w, id), r.visible, x))
    && Closed(w, r.visible, Ancestors(w, id))
    && forall a :: a in r.visible ==> w.requests[a].serial < r.serial
  }

  /** The rows read so far are a prefix of the walk, and older than the request. */
  ghost predicate OnTheWay(w: World, r: Request, p: Progress) {
    && (forall a :: a in p.path ==> a in w.requests && w.requests[a].serial < r.serial)
    && p.seen == (set a | a in p.path)
    && WalkFrom(w.rows, {}, r.previous)
       == Walk(p.path + WalkFrom(w.rows, p.seen, p.current).path, WalkFrom(w.rows, p.seen, p.current).end)
    && (p.current.Some? ==> p.current.value in w.named)
    && (p.current.Some? && p.current.value in w.requests ==>
          var serial := w.requests[p.current.value].serial;
          serial < r.serial && forall a :: a in p.path ==> serial < w.requests[a].serial)
  }

  /** The law of a walk under way. */
  ghost predicate WalkLaw(w: World, r: Request, p: Progress) {
    && OnTheWay(w, r, p)
    && (forall x :: Count(OutputsIn(p.items), x) == InheritedCount(w, p.path, r.visible, x))
    && Closed(w, r.visible, p.path)
  }

  ghost predicate RequestLaw(w: World, id: Id)
    requires id in w.requests && Tracked(w)
  {
    var r := w.requests[id];
    && (r.phase.Waiting? ==> r.visible == {})
    && (r.phase.Walking? ==> WalkLaw(w, r, r.phase.at))
    && (HasInherited(r) ==> LawOf(w, id))
  }

  ghost predicate Laws(w: World)
    requires Tracked(w)
  {
    forall id :: id in w.requests ==> RequestLaw(w, id)
  }

  ghost predicate Consistent(w: World) {
    Tracked(w) && Backward(w) && ChainsSaved(w) && ViewsSaved(w)
  }

  ghost predicate Inv(w: World) {
    Consistent(w) && Laws(w)
  }

  // ---- What a step leaves alone ----

  /** Saved requests stay as they are, nobody's origins change, new ids were never
      named. */
  ghost predicate Extends(w: World, w': World) {
    && w.named <= w'.named && w.requests.Keys <= w'.requests.Keys
    && (forall id :: id in w'.requests && id !in w.requests ==> id !in w.named)
    && (forall id :: id in w.requests ==> SameOrigin(w.requests[id], w'.requests[id]))
    && (forall id :: id in w.requests && w.requests[id].phase.Saved? ==> w'.requests[id] == w.requests[id])
  }

  predicate SameOrigin(r: Request, r': Request) {
    r'.previous == r.previous && r'.own == r.own && r'.stored == r.stored && r'.serial == r.serial
  }

  /** Only the request a step is about changes, and never once it is saved. */
  lemma OthersUntouched(w: World, step: Step, w': World)
    requires Tracked(w) && Leads(w, step, w')
    ensures w.named <= w'.named && w.requests.Keys <= w'.requests.Keys
    ensures forall id :: id in w'.requests && id !in w.requests ==> id == step.id && id !in w.named
    ensures forall id :: id in w.requests ==>
      || w'.requests[id] == w.requests[id]
      || (id == step.id && !w.requests[id].phase.Saved? && SameOrigin(w.requests[id], w'.requests[id]))
  {
    hide OutputsIn, ChainItems, Created, Completed, Cancelled, SavedIds, RowItems;
  }

  lemma StepExtends(w: World, step: Step, w': World)
    requires Tracked(w) && Leads(w, step, w')
    ensures Extends(w, w')
  {
    hide Tracked, Leads;
    OthersUntouched(w, step, w');
  }

  lemma {:induction false} NewRowChangesNoWalk(rows: Table, id: Id, row: StoredResponse, seen: set<Id>,
                                               current: Option<Id>)
    requires id !in rows && current != Some(id)
    requires forall other :: other in rows ==> rows[other].previousResponseId != Some(id)
    ensures WalkFrom(rows[id := row], seen, current) == WalkFrom(rows, seen, current)
    decreases rows.Keys - seen
  {
    if current.Some? && current.value !in seen && current.value in rows {
      NewRowChangesNoWalk(rows, id, row, seen + {current.value}, rows[current.value].previousResponseId);
    }
  }

  lemma StepRows(w: World, step: Step, w': World)
    requires Leads(w, step, w')
    ensures step.Submit? && w'.rows != w.rows ==> step.id !in w.named && w'.rows == w.rows[step.id := w'.rows[step.id]]
                                                  && step.id in w'.rows
    ensures !step.Submit? ==> SamePointers(w.rows, w'.rows)
  {
    hide OutputsIn, ChainItems, RowItems;
  }

  /** Walks from ids that were named before survive every step. */
  lemma {:induction false} StepKeepsWalks(w: World, step: Step, w': World, seen: set<Id>, current: Option<Id>)
    requires Tracked(w) && Backward(w) && Leads(w, step, w')
    requires current.Some? ==> current.value in w.named
    ensures WalkFrom(w'.rows, seen, current) == WalkFrom(w.rows, seen, current)
  {
    StepRows(w, step, w');
    hide WalkFrom, Leads;
    if !step.Submit? {
      SamePointersSameWalk(w.rows, w'.rows, seen, current);
    } else if w'.rows != w.rows {
      NewRowChangesNoWalk(w.rows, step.id, w'.rows[step.id], seen, current);
    }
  }

  lemma {:induction false} SameInheritance(w: World, w': World, path: seq<Id>, visible: set<Id>, x: ToolOutput)
    requires forall a :: a in path ==> a in w.requests && a in w'.requests
    requires forall a :: a in visible && a in w.requests && a in w'.requests ==>
                         w.requests[a].enriched == w'.requests[a].enriched
    ensures InheritedCount(w, path, visible, x) == InheritedCount(w', path, visible, x)
  {
    if path != [] {
      SameInheritance(w, w', path[1..], visible, x);
    }
  }

  lemma ClosedKept(w: World, w': World, visible: set<Id>, path: seq<Id>)
    requires Extends(w, w') && visible <= SavedIds(w) && Closed(w, visible, path)
    ensures Closed(w', visible, path)
  {
    forall a | a in visible ensures w'.requests[a] == w.requests[a] {}
  }

  lemma InheritanceKept(w: World, w': World, path: seq<Id>, visible: set<Id>)
    requires Extends(w, w') && visible <= SavedIds(w)
    requires forall a :: a in path ==> a in w.requests && a in w'.requests
    ensures forall x :: InheritedCount(w', path, visible, x) == InheritedCount(w, path, visible, x)
  {
    hide InheritedCount;
    forall x ensures InheritedCount(w', path, visible, x) == InheritedCount(w, path, visible, x) {
      SameInheritance(w, w', path, visible, x);
    }
  }

  lemma OnTheWayKept(w: World, step: Step, w': World, r: Request, p: Progress)
    requires Tracked(w) && Backward(w) && Leads(w, step, w') && OnTheWay(w, r, p)
    requires r.previous.Some? ==> r.previous.value in w.named
    ensures OnTheWay(w', r, p)
  {
    StepExtends(w, step, w');
    StepKeepsWalks(w, step, w', {}, r.previous);
    StepKeepsWalks(w, step, w', p.seen, p.current);
    hide WalkFrom, Leads, Tracked, Backward;
    assert p.current.Some? && p.current.value in w'.requests ==> p.current.value in w.requests;
  }

  /** A request keeps its law through a step that does not move it on. */
  lemma LawKept(w: World, step: Step, w': World, id: Id)
    requires Inv(w) && Tracked(w') && Leads(w, step, w')
    requires id in w.requests && id in w'.requests && HasInherited(w.requests[id])
    requires w'.requests[id] == w.requests[id].(phase := w'.requests[id].phase)
    ensures LawOf(w', id)
  {
    var r, path := w.requests[id], Ancestors(w, id);
    assert RequestLaw(w, id);
    StepExtends(w, step, w');
    StepKeepsWalks(w, step, w', {}, r.previous);
    WalkStaysInside(w.rows, {}, r.previous);
    WalkStaysInside(w'.rows, {}, r.previous);
    ClosedKept(w, w', r.visible, path);
    InheritanceKept(w, w', path, r.visible);
    assert forall a :: a in r.visible ==> w'.requests[a].serial == w.requests[a].serial;
    hide WalkFrom, Leads, InheritedCount, Extends, Closed, Backward, ChainsSaved, ViewsSaved, Tracked;
  }

  lemma WalkLawKept(w: World, step: Step, w': World, id: Id)
    requires Inv(w) && Tracked(w') && Leads(w, step, w')
    requires id in w.requests && w.requests[id].phase.Walking?
    requires id in w'.requests && w'.requests[id] == w.requests[id]
    ensures WalkLaw(w', w'.requests[id], w'.requests[id].phase.at)
  {
    var r := w.requests[id];
    var p := r.phase.at;
    assert RequestLaw(w, id);
    hide OnTheWay, Closed, InheritedCount, Extends, WalkFrom, Leads, Tracked, ChainsSaved;
    StepExtends(w, step, w');
    OnTheWayKept(w, step, w', r, p);
    ClosedKept(w, w', r.visible, p.path);
    assert forall a :: a in p.path ==> a in w.requests && a in w'.requests by {
      InRequests(w, w', r, p);
    }
    InheritanceKept(w, w', p.path, r.visible);
  }

  lemma InRequests(w: World, w': World, r: Request, p: Progress)
    requires OnTheWay(w, r, p) && Extends(w, w')
    ensures forall a :: a in p.path ==> a in w.requests && a in w'.requests
  {
    hide WalkFrom;
  }

  // ---- Reading a chain, row by row ----

  lemma {:induction false} CountOutputsReversed(items: seq<Json>, x: ToolOutput)
    ensures Count(OutputsIn(Reverse(items)), x) == Count(OutputsIn(items), x)
  {
    if items != [] {
      CountOutputsReversed(items[1..], x);
      OutputsInAppend(Reverse(items[1..]), [items[0]]);
      OutputsInAppend([items[0]], items[1..]);
      assert items == [items[0]] + items[1..];
      CountAppend(OutputsIn(Reverse(items[1..])), OutputsIn([items[0]]), x);
      CountAppend(OutputsIn([items[0]]), OutputsIn(items[1..]), x);
    }
  }

  /** A row contributes exactly what was enriched into it, once it is saved. */
  lemma {:induction false} RowContribution(w: World, id: Id, x: ToolOutput)
    requires Tracked(w) && ChainsSaved(w) && id in w.rows
    ensures Count(OutputsIn(RowItems(w.rows[id])), x) ==
            if id in SavedIds(w) then Count(w.requests[id].enriched, x) else 0
  {
  }

  lemma {:induction false} InheritOneMore(w: World, path: seq<Id>, next: Id, visible: set<Id>, visible': set<Id>,
                                          x: ToolOutput)
    requires next in w.requests && next !in path && forall a :: a in path ==> a in w.requests
    requires visible' - {next} == visible - {next}
    ensures InheritedCount(w, path + [next], visible', x)
         == InheritedCount(w, path, visible, x) + if next in visible' then Count(w.requests[next].enriched, x) else 0
  {
    if path == [] {
      assert path + [next] == [next] && [next][1..] == [];
      assert InheritedCount(w, [], visible', x) == 0;
    } else {
      assert (path + [next])[1..] == path[1..] + [next];
      InheritOneMore(w, path[1..], next, visible, visible', x);
      assert path[0] in visible <==> path[0] in visible' by {
        assert path[0] != next;
        assert path[0] in visible - {next} <==> path[0] in visible' - {next};
      }
    }
  }

  lemma BeginLaw(w: World, id: Id, w': World)
    requires Inv(w) && Tracked(w') && Leads(w, BeginWalk(id), w')
    ensures WalkLaw(w', w'.requests[id], w'.requests[id].phase.at)
  {
    var r := w.requests[id];
    assert RequestLaw(w, id);
    assert [] + WalkFrom(w.rows, {}, r.previous).path == WalkFrom(w.rows, {}, r.previous).path;
  }

  lemma ReadStep(w: World, id: Id, w': World)
    requires Leads(w, ReadRow(id), w') && w'.requests[id].phase.Walking?
    ensures var r := w.requests[id];
      var p := r.phase.at;
      && p.current.Some? && p.current.value in w.rows && p.current.value !in p.seen
      && w'.rows == w.rows && w'.named == w.named
      && w'.requests == w.requests[id := w'.requests[id]]
      && w'.requests[id] == r.(
           phase := Walking(Progress(w.rows[p.current.value].previousResponseId, p.seen + {p.current.value},
                                     p.path + [p.current.value], p.items + RowItems(w.rows[p.current.value]))),
           visible := r.visible + (if p.current.value in SavedIds(w) then {p.current.value} else {}))
  {
    hide RowItems, SavedIds;
  }

  lemma PreviousIsOlder(w: World, id: Id)
    requires Tracked(w) && Backward(w) && id in w.rows
    ensures id in w.requests
    ensures var previous := w.rows[id].previousResponseId;
      previous.Some? ==>
        && previous.value in w.named
        && (previous.value in w.requests ==> w.requests[previous.value].serial < w.requests[id].serial)
  {
  }

  lemma ReadOnTheWay(w: World, id: Id, w': World)
    requires Tracked(w) && Backward(w) && id in w.requests && Tracked(w')
    requires Leads(w, ReadRow(id), w') && w'.requests[id].phase.Walking?
    requires OnTheWay(w, w.requests[id], w.requests[id].phase.at)
    ensures OnTheWay(w', w'.requests[id], w'.requests[id].phase.at)
  {
    var r := w.requests[id];
    var p := r.phase.at;
    var current := p.current.value;
    var rest := WalkFrom(w.rows, p.seen + {current}, w.rows[current].previousResponseId);
    assert p.path + ([current] + rest.path) == (p.path + [current]) + rest.path;
    ReadStep(w, id, w');
    var p' := w'.requests[id].phase.at;
    assert p'.seen == set a | a in p'.path;
    PreviousIsOlder(w, current);
    hide WalkFrom, Leads, RowItems, SavedIds, Tracked, Backward;
  }

  lemma {:induction false} ReadCounts(w: World, id: Id, w': World, x: ToolOutput)
    requires Consistent(w) && id in w.requests && Tracked(w')
    requires Leads(w, ReadRow(id), w') && w'.requests[id].phase.Walking?
    requires WalkLaw(w, w.requests[id], w.requests[id].phase.at)
    ensures var r' := w'.requests[id];
      && (forall a :: a in r'.phase.at.path ==> a in w'.requests)
      && Count(OutputsIn(r'.phase.at.items), x) == InheritedCount(w', r'.phase.at.path, r'.visible, x)
  {
    ReadStep(w, id, w');
    var r, r' := w.requests[id], w'.requests[id];
    var p := r.phase.at;
    var current := p.current.value;
    hide Leads, Closed;
    OutputsInAppend(p.items, RowItems(w.rows[current]));
    CountAppend(OutputsIn(p.items), OutputsIn(RowItems(w.rows[current])), x);
    RowContribution(w, current, x);
    hide OutputsIn, RowItems, WalkFrom, ChainsSaved, Backward, ViewsSaved;
    assert current !in p.path;
    assert r'.visible - {current} == r.visible - {current};
    assert current in r'.visible <==> current in SavedIds(w);
    InheritOneMore(w, p.path, current, r.visible, r'.visible, x);
    SameInheritance(w, w', p.path + [current], r'.visible, x);
  }

  lemma ReadClosed(w: World, id: Id, w': World)
    requires Inv(w) && id in w.requests && Tracked(w')
    requires Leads(w, ReadRow(id), w') && w'.requests[id].phase.Walking?
    ensures Closed(w', w'.requests[id].visible, w'.requests[id].phase.at.path)
  {
    var r, r' := w.requests[id], w'.requests[id];
    var p := r.phase.at;
    var current := p.current.value;
    assert RequestLaw(w, id);
    ReadStep(w, id, w');
    hide OutputsIn, RowItems, WalkFrom, Leads, InheritedCount, ChainsSaved, Backward;
    forall a | a in r'.visible
      ensures a in r'.phase.at.path && a in w'.requests
      ensures forall b :: b in w'.requests[a].visible ==> b in r'.visible || b !in r'.phase.at.path
    {
      assert a in SavedIds(w) && a != id;
      if a in r.visible {
        assert w.requests[a].visible <= SavedIds(w);
      } else {
        assert a == current && RequestLaw(w, a);
        assert forall b :: b in w.requests[a].visible ==> w.requests[b].serial < w.requests[a].serial;
      }
    }
  }

  /** Reading one more row keeps the law of the walk, whatever happened since the
      last read. */
  lemma ReadLaw(w: World, id: Id, w': World)
    requires Inv(w) && Tracked(w') && Leads(w, ReadRow(id), w') && w'.requests[id].phase.Walking?
    ensures WalkLaw(w', w'.requests[id], w'.requests[id].phase.at)
  {
    assert RequestLaw(w, id);
    ReadOnTheWay(w, id, w');
    ReadClosed(w, id, w');
    hide Leads, OnTheWay, Closed;
    forall x ensures Count(OutputsIn(w'.requests[id].phase.at.items), x)
                  == InheritedCount(w', w'.requests[id].phase.at.path, w'.requests[id].visible, x) {
      ReadCounts(w, id, w', x);
    }
  }

  /** A walk that ended has read all ancestors. */
  lemma {:induction false} WalkEnds(rows: Table, r: Request, p: Progress)
    requires AtEnd(p)
    requires WalkFrom(rows, {}, r.previous)
        == Walk(p.path + WalkFrom(rows, p.seen, p.current).path, WalkFrom(rows, p.seen, p.current).end)
    ensures WalkFrom(rows, {}, r.previous) == Walk(p.path, Finished)
  {
    assert WalkFrom(rows, p.seen, p.current) == Walk([], Finished);
    hide WalkFrom;
    assert p.path + [] == p.path;
  }

  lemma {:induction false} FinishCounts(w: World, w': World, r: Request, p: Progress, x: ToolOutput)
    requires forall a :: a in p.path ==> a in w.requests && a in w'.requests
    requires forall a :: a in r.visible && a in w.requests && a in w'.requests ==>
                         w.requests[a].enriched == w'.requests[a].enriched
    requires Count(OutputsIn(p.items), x) == InheritedCount(w, p.path, r.visible, x)
    ensures Count(r.own + OutputsIn(Reverse(p.items)), x) == Count(r.own, x) + InheritedCount(w', p.path, r.visible, x)
  {
    hide InheritedCount, OutputsIn;
    CountAppend(r.own, OutputsIn(Reverse(p.items)), x);
    CountOutputsReversed(p.items, x);
    SameInheritance(w, w', p.path, r.visible, x);
  }

  lemma FinishStep(w: World, id: Id, w': World)
    requires Leads(w, FinishWalk(id), w')
    ensures var r := w.requests[id];
      && AtEnd(r.phase.at) && w'.rows == w.rows
      && w'.requests == w.requests[id := w'.requests[id]]
      && w'.requests[id] == r.(phase := Ready, enriched := r.own + OutputsIn(Reverse(r.phase.at.items)))
  {
    hide OutputsIn;
  }

  /** Nothing that a walk saw is changed by its end. */
  lemma FinishCloses(w: World, id: Id, w': World, visible: set<Id>, path: seq<Id>)
    requires Closed(w, visible, path) && id in w.requests && id in w'.requests && id !in visible
    requires w'.requests == w.requests[id := w'.requests[id]]
    ensures Closed(w', visible, path)
  {
    forall a | a in visible ensures w'.requests[a] == w.requests[a] {}
  }

  /** The step that ends a walk establishes the law of its request. */
  lemma FinishLaw(w: World, id: Id, w': World)
    requires Inv(w) && Tracked(w') && Leads(w, FinishWalk(id), w')
    ensures LawOf(w', id)
  {
    FinishStep(w, id, w');
    hide Leads;
    var r := w.requests[id];
    var p := r.phase.at;
    assert RequestLaw(w, id);
    assert id !in r.visible by { assert r.visible <= SavedIds(w); }
    hide Inv, Consistent, Laws, Tracked;
    WalkEnds(w.rows, r, p);
    FinishCloses(w, id, w', r.visible, p.path);
    FinishSums(w, id, w', r, p);
    WalkStaysInside(w'.rows, {}, r.previous);
    hide WalkFrom, InheritedCount, OutputsIn, Closed;
  }

  lemma {:induction false} FinishSums(w: World, id: Id, w': World, r: Request, p: Progress)
    requires id in w.requests && id in w'.requests && id !in r.visible
    requires w'.requests == w.requests[id := w'.requests[id]]
    requires w'.requests[id].enriched == r.own + OutputsIn(Reverse(p.items))
    requires forall a :: a in p.path ==> a in w.requests
    requires forall x :: Count(OutputsIn(p.items), x) == InheritedCount(w, p.path, r.visible, x)
    ensures forall x :: Count(w'.requests[id].enriched, x) == Count(r.own, x) + InheritedCount(w', p.path, r.visible, x)
  {
    hide InheritedCount, OutputsIn;
    forall x ensures Count(w'.requests[id].enriched, x) == Count(r.own, x) + InheritedCount(w', p.path, r.visible, x) {
      FinishCounts(w, w', r, p, x);
    }
  }

  // ---- Each step keeps the bookkeeping ----

  /** All but a submission leave alone who refers to whom. */
  lemma StepFrame(w: World, step: Step, w': World)
    requires Leads(w, step, w') && !step.Submit?
    ensures w'.requests.Keys == w.requests.Keys && w'.named == w.named && w'.clock == w.clock
    ensures forall id :: id in w.requests ==>
      && SameOrigin(w.requests[id], w'.requests[id])
      && (w'.requests[id].phase.Saved? ==> w.requests[id].phase.Saved? || w.requests[id].stored)
  {
    hide OutputsIn, ChainItems, Created, Completed, Cancelled, RowItems, SavedIds;
  }

  lemma SubmitTracked(w: World, step: Step, w': World)
    requires Tracked(w) && Leads(w, step, w') && step.Submit?
    ensures Tracked(w')
    ensures w'.requests == w.requests[step.id := w'.requests[step.id]] && w'.requests[step.id].phase.Waiting?
  {
  }

  lemma StepTracked(w: World, step: Step, w': World)
    requires Tracked(w) && Leads(w, step, w')
    requires forall id :: id in w.requests && w.requests[id].phase.Saved? ==> w.requests[id].stored
    ensures Tracked(w')
    ensures forall id :: id in w'.requests && w'.requests[id].phase.Saved? ==> w'.requests[id].stored
  {
    hide Leads;
    if step.Submit? {
      SubmitTracked(w, step, w');
    } else {
      StepFrame(w, step, w');
      StepRows(w, step, w');
    }
  }

  lemma SubmitBackward(w: World, step: Step, w': World)
    requires Tracked(w) && Backward(w) && Leads(w, step, w') && step.Submit?
    ensures Backward(w')
  {
    hide Created;
  }

  lemma StepBackward(w: World, step: Step, w': World)
    requires Tracked(w) && Backward(w) && Leads(w, step, w')
    ensures Backward(w')
  {
    hide Leads, Tracked;
    if step.Submit? {
      SubmitBackward(w, step, w');
    } else {
      StepFrame(w, step, w');
    }
  }

  lemma StepChains(w: World, step: Step, w': World)
    requires Tracked(w) && ChainsSaved(w) && Leads(w, step, w')
    ensures ChainsSaved(w')
  {
    hide ChainItems, OutputsIn, RowItems, SavedIds;
    if step.Persist? {
      ChainReadsBack(w.requests[step.id].enriched, step.items);
    }
  }

  lemma StepSaved(w: World, step: Step, w': World)
    requires Tracked(w) && Leads(w, step, w')
    ensures SavedIds(w') == if step.Persist? then SavedIds(w) + {step.id} else SavedIds(w)
  {
    hide OutputsIn, ChainItems, Created, Completed, Cancelled, RowItems;
  }

  /** What a request sees only grows by saved rows that it reads. */
  lemma StepViews(w: World, step: Step, w': World)
    requires Tracked(w) && ViewsSaved(w) && Leads(w, step, w')
    requires forall id :: id in w'.requests && w'.requests[id].phase.Saved? ==> w'.requests[id].stored
    ensures ViewsSaved(w')
  {
    StepSaved(w, step, w');
    hide OutputsIn, ChainItems, Created, Completed, Cancelled, RowItems, SavedIds;
  }

  lemma StepConsistent(w: World, step: Step, w': World)
    requires Consistent(w) && Leads(w, step, w')
    ensures Consistent(w')
  {
    hide Leads, Tracked, Backward, ChainsSaved;
    StepTracked(w, step, w');
    StepBackward(w, step, w');
    StepChains(w, step, w');
    StepViews(w, step, w');
  }

  // ---- Each step keeps the laws ----

  /** What becomes of one request in a step. */
  lemma Moves(w: World, step: Step, w': World, id: Id)
    requires Tracked(w) && Leads(w, step, w') && id in w'.requests
    ensures id !in w.requests ==> w'.requests[id].phase.Waiting? && w'.requests[id].visible == {}
    ensures id in w.requests ==>
      var r, r' := w.requests[id], w'.requests[id];
      || r' == r
      || r'.phase.Failed?
      || (r' == r.(phase := r'.phase) && HasInherited(r) && HasInherited(r'))
      || (step == BeginWalk(id) && r'.phase.Walking?)
      || (step == ReadRow(id) && r'.phase.Walking?)
      || (step == FinishWalk(id) && r'.phase.Ready?)
  {
    hide OutputsIn, ChainItems, Created, Completed, Cancelled, RowItems, SavedIds;
  }

  lemma UntouchedKeepsLaw(w: World, step: Step, w': World, id: Id)
    requires Inv(w) && Leads(w, step, w') && Tracked(w')
    requires id in w.requests && id in w'.requests && w'.requests[id] == w.requests[id]
    ensures RequestLaw(w', id)
  {
    assert RequestLaw(w, id);
    hide LawOf, WalkLaw, Leads, Inv;
    if w.requests[id].phase.Walking? {
      WalkLawKept(w, step, w', id);
    } else if HasInherited(w.requests[id]) {
      LawKept(w, step, w', id);
    }
  }

  lemma MovedKeepsLaw(w: World, step: Step, w': World, id: Id)
    requires Inv(w) && Leads(w, step, w') && Tracked(w')
    requires id in w.requests && id in w'.requests && w'.requests[id] != w.requests[id]
    ensures RequestLaw(w', id)
  {
    Moves(w, step, w', id);
    hide LawOf, WalkLaw, Leads, Apply, Tracked, Inv, Consistent, SavedIds;
    var r, r' := w.requests[id], w'.requests[id];
    if HasInherited(r) && HasInherited(r') {
      LawKept(w, step, w', id);
    } else if r'.phase.Walking? {
      if step.BeginWalk? {
        BeginLaw(w, id, w');
      } else {
        ReadLaw(w, id, w');
      }
    } else if r'.phase.Ready? {
      FinishLaw(w, id, w');
    }
  }

  lemma StepKeepsLaw(w: World, step: Step, w': World, id: Id)
    requires Inv(w) && Leads(w, step, w') && Tracked(w') && id in w'.requests
    ensures RequestLaw(w', id)
  {
    if id !in w.requests {
      Moves(w, step, w', id);
      hide Leads, Inv, LawOf, WalkLaw;
    } else if w'.requests[id] == w.requests[id] {
      UntouchedKeepsLaw(w, step, w', id);
    } else {
      MovedKeepsLaw(w, step, w', id);
    }
  }

  lemma StepKeepsInv(w: World, step: Step, w': World)
    requires Inv(w) && Leads(w, step, w')
    ensures Inv(w')
  {
    hide Leads, RequestLaw, Tracked, Backward, ChainsSaved, ViewsSaved;
    StepConsistent(w, step, w');
    forall id | id in w'.requests ensures RequestLaw(w', id) {
      StepKeepsLaw(w, step, w', id);
    }
  }

  /** Every reachable world satisfies the invariant. */
  lemma {:induction false} RunsKeepInv(steps: seq<Step>, w: World)
    requires Reaches(steps, w)
    ensures Inv(w)
  {
    if steps != [] {
      hide Leads, Inv;
      var front, last := steps[..|steps| - 1], steps[|steps| - 1];
      var before :| Reaches(front, before) && Leads(before, last, w);
      RunsKeepInv(front, before);
      StepKeepsInv(before, last, w);
    }
  }
}
