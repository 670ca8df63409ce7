/** What the columns of a stored response say after any run of requests: what the
    last step that wrote them said (crates/copenai-store/src/responses.rs). */
module RowHistory {
  import opened Wrappers
  import opened Responses
  import opened ResponseChain
  import opened ChainRuns

  /** The columns that change after a row is created. */
  datatype Columns = Columns(status: string, output: Option<JsonList>, completedAt: Option<int>)

  /** The last write wins; a cancellation keeps what was saved, and an earlier time. */
  function LastWritten(steps: seq<Step>, id: Id): Option<Columns> {
    if steps == [] then None else
      var before, last := LastWritten(steps[..|steps| - 1], id), steps[|steps| - 1];
      if last.id != id then before
      else match last
        case Submit(_, previous, _, wantsStore, _, _, _, _) =>
          if wantsStore || previous.Some? then Some(Columns("in_progress", None, None)) else before
        case Persist(_, status, output, _, now) => Some(Columns(status, Some(output), Some(now)))
        case Cancel(_, now) =>
          if before.None? then None
          else Some(Columns("cancelled", before.value.output,
                            if before.value.completedAt.Some? then before.value.completedAt else Some(now)))
        case _ => before
  }

  function ColumnsOf(row: StoredResponse): Columns {
    Columns(row.status, row.outputJson, row.completedAt)
  }

  ghost predicate Says(w: World, id: Id, columns: Option<Columns>) {
    (id in w.rows <==> columns.Some?) && (id in w.rows ==> ColumnsOf(w.rows[id]) == columns.value)
  }

  /** Rows other than the step's own keep their columns. */
  lemma OtherRows(w: World, step: Step, w': World, id: Id)
    requires Tracked(w) && Leads(w, step, w') && id != step.id
    ensures id in w'.rows <==> id in w.rows
    ensures id in w.rows ==> w'.rows[id] == w.rows[id]
  {
    hide OutputsIn, ChainItems, RowItems, SavedIds;
  }

  lemma OwnRow(w: World, step: Step, w': World)
    requires Tracked(w) && Leads(w, step, w')
    ensures var id := step.id;
      match step
      case Submit(_, previous, _, wantsStore, _, _, _, _) =>
        if wantsStore || previous.Some? then Says(w', id, Some(Columns("in_progress", None, None)))
        else id !in w'.rows && id !in w.rows
      case Persist(_, status, output, _, now) => Says(w', id, Some(Columns(status, Some(output), Some(now))))
      case Cancel(_, now) =>
        if id in w.rows then
          var row := w.rows[id];
          Says(w', id, Some(Columns("cancelled", row.outputJson,
                                    if row.completedAt.Some? then row.completedAt else Some(now))))
        else id !in w'.rows
      case _ => w'.rows == w.rows
  {
    hide OutputsIn, ChainItems, RowItems, SavedIds;
  }

  /** In every reachable store, every row says what was last written to it. */
  lemma {:induction false} LastWriteStands(steps: seq<Step>, w: World, id: Id)
    requires Reaches(steps, w)
    ensures Says(w, id, LastWritten(steps, id))
  {
    if steps != [] {
      var front, last := steps[..|steps| - 1], steps[|steps| - 1];
      var before :| Reaches(front, before) && Leads(before, last, w);
      LastWriteStands(front, before, id);
      RunsKeepInv(front, before);
      assert Tracked(before);
      hide Reaches, Leads, Tracked, Inv;
      if last.id == id {
        OwnRow(before, last, w);
      } else {
        OtherRows(before, last, w, id);
      }
    }
  }

  /** A stored request whose turn was saved as completed, and not cancelled or saved
      again, says so for good: not "in_progress", and with its output and time. */
  lemma {:induction false} CompletedStays(steps: seq<Step>, later: seq<Step>, w: World, id: Id, step: Step)
    requires Reaches(steps + [step] + later, w)
    requires step.Persist? && step.id == id
    requires forall s :: s in later && (s.Persist? || s.Cancel? || s.Submit?) ==> s.id != id
    ensures id in w.rows && w.rows[id].status == step.status
    ensures w.rows[id].outputJson == Some(step.output) && w.rows[id].completedAt == Some(step.now)
  {
    LastWriteStands(steps + [step] + later, w, id);
    LastWriteKept(steps + [step], later, id);
    assert (steps + [step])[..|steps|] == steps;
  }

  lemma {:induction false} LastWriteKept(steps: seq<Step>, later: seq<Step>, id: Id)
    requires forall s :: s in later && (s.Persist? || s.Cancel? || s.Submit?) ==> s.id != id
    ensures LastWritten(steps + later, id) == LastWritten(steps, id)
  {
    if later == [] {
      assert steps + later == steps;
    } else {
      var front, last := later[..|later| - 1], later[|later| - 1];
      assert (steps + later)[..|steps + later| - 1] == steps + front;
      assert last in later;
      LastWriteKept(steps, front, id);
    }
  }
}
