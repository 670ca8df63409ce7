/** The table of stored responses and the walk along its previous-response
    pointers (crates/copenai-store/src/responses.rs). */
module Responses {
  import opened Wrappers
  import opened Json
  import opened Sequences

  type Id = string

  /** A text column that is read back as a JSON list. */
  datatype JsonList = Parsed(items: seq<Json>) | Malformed

  datatype StoredResponse = StoredResponse(
    id: Id,
    conversationId: Option<string>,
    status: string,
    model: string,
    toolExecution: string,
    previousResponseId: Option<Id>,
    outputJson: Option<JsonList>,
    inputChainJson: Option<JsonList>,
    createdAt: int,
    completedAt: Option<int>)

  type Table = map<Id, StoredResponse>

  // ---- The statements, as functions on the table ----

  function Created(rows: Table, id: Id, conversationId: Option<string>, model: string, toolExecution: string,
                   previous: Option<Id>, now: int): Table
  {
    rows[id := StoredResponse(id, conversationId, "in_progress", model, toolExecution, previous, None, None, now, None)]
  }

  function Completed(rows: Table, id: Id, status: string, output: JsonList, chain: Option<JsonList>, now: int): Table {
    if id !in rows then rows else
      var row := rows[id];
      rows[id := row.(status := status, outputJson := Some(output),
                      inputChainJson := if chain.Some? then chain else row.inputChainJson,
                      completedAt := Some(now))]
  }

  function Cancelled(rows: Table, id: Id, now: int): Table {
    if id !in rows then rows else
      var row := rows[id];
      rows[id := row.(status := "cancelled",
                      completedAt := if row.completedAt.Some? then row.completedAt else Some(now))]
  }

  /** Nothing but the row under id differs. */
  ghost predicate OnlyRow(before: Table, after: Table, id: Id) {
    after.Keys == before.Keys && forall other :: other in before && other != id ==> after[other] == before[other]
  }

  /** The row was completed: these columns are written, the others kept. */
  ghost predicate RowCompleted(before: StoredResponse, after: StoredResponse, status: string, output: JsonList,
                               chain: Option<JsonList>, now: int)
  {
    && after.status == status && after.outputJson == Some(output) && after.completedAt == Some(now)
    && after.inputChainJson == (if chain.Some? then chain else before.inputChainJson)
    && after.id == before.id && after.conversationId == before.conversationId && after.model == before.model
    && after.toolExecution == before.toolExecution && after.createdAt == before.createdAt
    && after.previousResponseId == before.previousResponseId
  }

  ghost predicate RowCancelled(before: StoredResponse, after: StoredResponse, now: int) {
    && after.status == "cancelled"
    && after.completedAt == (if before.completedAt.Some? then before.completedAt else Some(now))
    && after.outputJson == before.outputJson && after.inputChainJson == before.inputChainJson
    && after.id == before.id && after.conversationId == before.conversationId && after.model == before.model
    && after.toolExecution == before.toolExecution && after.createdAt == before.createdAt
    && after.previousResponseId == before.previousResponseId
  }

  ghost predicate RowBegun(row: StoredResponse, id: Id, conversationId: Option<string>, model: string,
                           toolExecution: string, previous: Option<Id>, now: int)
  {
    && row.status == "in_progress" && row.id == id && row.createdAt == now && row.previousResponseId == previous
    && row.conversationId == conversationId && row.model == model && row.toolExecution == toolExecution
    && row.outputJson.None? && row.inputChainJson.None? && row.completedAt.None?
  }

  // ---- What one row contributes ----

  /** Items of a stored output list are mapped to chain items, or dropped: calls,
      messages and tool outputs as they are, anything else that looks like a call as
      a call. */
  function FallbackOutputToChain(item: Json): (r: Option<Json>)
    ensures r.Some? ==> item.Object? && StringOf(item.Get("type")).Some?
    ensures item.Get("type") == Some(Str("function_call")) ==> r == Some(item)
    ensures item.Get("type") == Some(Str("message")) ==> r == Some(item)
    ensures item.Get("type") == Some(Str("function_call_output")) ==> r == Some(item)
    ensures r.Some? && r.value != item ==>
      && r.value.Get("type") == Some(Str("function_call"))
      && r.value.Get("name") == item.Get("name") && r.value.Get("arguments") == item.Get("arguments")
      && r.value.Get("call_id") == Some(item.Get("call_id").GetOr(Str("")))
  {
    var kind := StringOf(item.Get("type"));
    if !item.Object? || kind.None? then None
    else if kind.value in ["function_call", "message", "function_call_output"] then Some(item)
    else if item.Get("name").Some? && item.Get("arguments").Some? then
      Some(Object(map["type" := Str("function_call"),
                      "call_id" := item.Get("call_id").GetOr(Str("")),
                      "name" := item.fields["name"],
                      "arguments" := item.fields["arguments"]]))
    else None
  }

  function FallbackItems(outputs: seq<Json>): seq<Json> {
    if outputs == [] then [] else
      var last := FallbackOutputToChain(outputs[|outputs| - 1]);
      FallbackItems(outputs[..|outputs| - 1]) + (if last.Some? then [last.value] else [])
  }

  /** The saved chain if there is one, even an unreadable one; else the output. */
  function RowItems(row: StoredResponse): seq<Json> {
    match row.inputChainJson
    case Some(Parsed(items)) => items
    case Some(Malformed) => []
    case None =>
      match row.outputJson
      case Some(Parsed(outputs)) => FallbackItems(outputs)
      case _ => []
  }

  // ---- The walk ----

  datatype WalkEnd = Finished | Missing(id: Id)

  datatype Walk = Walk(path: seq<Id>, end: WalkEnd)

  /** The rows visited from current on, when seen were visited before. */
  function WalkFrom(rows: Table, seen: set<Id>, current: Option<Id>): Walk
    decreases rows.Keys - seen
  {
    if current.None? || current.value in seen then Walk([], Finished)
    else if current.value !in rows then Walk([], Missing(current.value))
    else
      var rest := WalkFrom(rows, seen + {current.value}, rows[current.value].previousResponseId);
      Walk([current.value] + rest.path, rest.end)
  }

  function ItemsAlong(rows: Table, path: seq<Id>): seq<seq<Json>>
    requires forall id :: id in path ==> id in rows
  {
    seq(|path|, k requires 0 <= k < |path| => RowItems(rows[path[k]]))
  }

  lemma {:induction false} WalkStaysInside(rows: Table, seen: set<Id>, current: Option<Id>)
    ensures forall id :: id in WalkFrom(rows, seen, current).path ==> id in rows && id !in seen
    decreases rows.Keys - seen
  {
    if current.Some? && current.value !in seen && current.value in rows {
      WalkStaysInside(rows, seen + {current.value}, rows[current.value].previousResponseId);
    }
  }

  function NotFound(id: Id): string {
    "previous_response_id not found: " + id
  }

  /** What a walk yields: the items of the visited rows, all in reverse. */
  function ChainOf(rows: Table, previous: Id): Result<seq<Json>, string> {
    var walk := WalkFrom(rows, {}, Some(previous));
    WalkStaysInside(rows, {}, Some(previous));
    match walk.end
    case Missing(id) => Failure(NotFound(id))
    case Finished => Success(Reverse(Flatten(ItemsAlong(rows, walk.path))))
  }

  class ResponseStore {
    var rows: Table

    constructor ()
      ensures rows == map[]
    {
      rows := map[];
    }

    /** The id is the primary key. */
    method Create(id: Id, conversationId: Option<string>, model: string, toolExecution: string,
                  previous: Option<Id>, now: int) returns (r: Result<(), string>)
      modifies this
      ensures r.Success? <==> id !in old(rows)
      ensures rows == if id in old(rows) then old(rows)
                      else Created(old(rows), id, conversationId, model, toolExecution, previous, now)
      ensures id !in old(rows) ==>
        && rows.Keys == old(rows).Keys + {id}
        && RowBegun(rows[id], id, conversationId, model, toolExecution, previous, now)
        && forall other :: other in old(rows) ==> rows[other] == old(rows)[other]
    {
      if id in rows {
        return Failure("UNIQUE constraint failed: responses.id");
      }
      rows := rows[id := StoredResponse(id, conversationId, "in_progress", model, toolExecution, previous,
                                        None, None, now, None)];
      return Success(());
    }

    method Get(id: Id) returns (r: Option<StoredResponse>)
      ensures r == if id in rows then Some(rows[id]) else None
    {
      if id in rows {
        return Some(rows[id]);
      }
      return None;
    }

    method UpdateCompleted(id: Id, status: string, output: JsonList, chain: Option<JsonList>, now: int)
      modifies this
      ensures rows == Completed(old(rows), id, status, output, chain, now)
      ensures OnlyRow(old(rows), rows, id)
      ensures id in old(rows) ==> RowCompleted(old(rows)[id], rows[id], status, output, chain, now)
    {
      if id in rows {
        var row := rows[id];
        row := row.(status := status, outputJson := Some(output), completedAt := Some(now));
        if chain.Some? {
          row := row.(inputChainJson := chain);
        }
        rows := rows[id := row];
      }
    }

    method Cancel(id: Id, now: int) returns (found: bool)
      modifies this
      ensures found <==> id in old(rows)
      ensures rows == Cancelled(old(rows), id, now)
      ensures OnlyRow(old(rows), rows, id)
      ensures id in old(rows) ==> RowCancelled(old(rows)[id], rows[id], now)
    {
      found := id in rows;
      if found {
        var row := rows[id].(status := "cancelled");
        if row.completedAt.None? {
          row := row.(completedAt := Some(now));
        }
        rows := rows[id := row];
      }
    }

    method PushRowItems(items: seq<Json>, row: StoredResponse) returns (items': seq<Json>)
      ensures items' == items + RowItems(row)
    {
      items' := items;
      if row.inputChainJson.Some? {
        if row.inputChainJson.value.Parsed? {
          var chain := row.inputChainJson.value.items;
          var i := 0;
          while i < |chain|
            invariant 0 <= i <= |chain|
            invariant items' == items + chain[..i]
          {
            items' := items' + [chain[i]];
            i := i + 1;
          }
          assert chain[..i] == chain;
        }
      } else if row.outputJson.Some? && row.outputJson.value.Parsed? {
        var outputs := row.outputJson.value.items;
        var i := 0;
        while i < |outputs|
          invariant 0 <= i <= |outputs|
          invariant items' == items + FallbackItems(outputs[..i])
        {
          assert outputs[..i + 1][..i] == outputs[..i];
          var mapped := FallbackOutputToChain(outputs[i]);
          if mapped.Some? {
            items' := items' + [mapped.value];
          }
          i := i + 1;
        }
        assert outputs[..i] == outputs;
      }
    }

    method ChainInputItems(previous: Id) returns (r: Result<seq<Json>, string>)
      ensures r == ChainOf(rows, previous)
    {
      assert Flatten(ItemsAlong(rows, [])) == [];
      hide RowItems, Flatten, Reverse;
      var items: seq<Json> := [];
      var current := Some(previous);
      var seen: set<Id> := {};
      ghost var path: seq<Id> := [];
      while current.Some?
        invariant forall id :: id in path ==> id in rows
        invariant items == Flatten(ItemsAlong(rows, path))
        invariant WalkFrom(rows, {}, Some(previous)) ==
                  Walk(path + WalkFrom(rows, seen, current).path, WalkFrom(rows, seen, current).end)
        decreases rows.Keys - seen, current.Some?
      {
        var id := current.value;
        if id in seen {
          break;
        }
        var stored := Get(id);
        if stored.None? {
          return Failure(NotFound(id));
        }
        items := PushRowItems(items, stored.value);
        assert path + ([id] + WalkFrom(rows, seen + {id}, rows[id].previousResponseId).path)
            == (path + [id]) + WalkFrom(rows, seen + {id}, rows[id].previousResponseId).path;
        assert ItemsAlong(rows, path + [id]) == ItemsAlong(rows, path) + [RowItems(rows[id])];
        FlattenSnoc(ItemsAlong(rows, path), RowItems(rows[id]));
        path := path + [id];
        seen := seen + {id};
        current := stored.value.previousResponseId;
      }
      assert path + [] == path;
      r := Success(Reverse(items));
    }
  }

  // ---- What the walk visits, said without the walk ----

  /** Rows that follow each other's pointers from start. */
  ghost predicate PointerPath(rows: Table, start: Id, path: seq<Id>) {
    && (path != [] ==> path[0] == start)
    && (forall k :: 0 <= k < |path| ==> path[k] in rows)
    && (forall k :: 0 <= k < |path| - 1 ==> rows[path[k]].previousResponseId == Some(path[k + 1]))
  }

  /** Where the pointers lead after a path. */
  function After(rows: Table, start: Id, path: seq<Id>): Option<Id>
    requires forall id :: id in path ==> id in rows
  {
    if path == [] then Some(start) else rows[path[|path| - 1]].previousResponseId
  }

  /** A pointer path without repetitions that cannot go on: the pointers end, come
      back to a visited row, or leave the table. */
  ghost predicate Maximal(rows: Table, start: Id, path: seq<Id>) {
    && PointerPath(rows, start, path) && Distinct(path)
    && (var next := After(rows, start, path);
        next.None? || next.value in path || next.value !in rows)
  }

  lemma {:induction false} WalkExtends(rows: Table, start: Id, front: seq<Id>, seen: set<Id>)
    requires PointerPath(rows, start, front) && Distinct(front)
    requires seen == set id | id in front
    ensures var walk := WalkFrom(rows, seen, After(rows, start, front));
      && Maximal(rows, start, front + walk.path)
      && (walk.end.Missing? <==> After(rows, start, front + walk.path).Some?
                                 && After(rows, start, front + walk.path).value !in rows)
      && (walk.end.Missing? ==> After(rows, start, front + walk.path) == Some(walk.end.id))
    decreases rows.Keys - seen
  {
    var current := After(rows, start, front);
    if current.None? || current.value in seen || current.value !in rows {
      assert front + [] == front;
    } else {
      var longer := front + [current.value];
      assert PointerPath(rows, start, longer);
      assert seen + {current.value} == set id | id in longer;
      WalkExtends(rows, start, longer, seen + {current.value});
      var rest := WalkFrom(rows, seen + {current.value}, rows[current.value].previousResponseId);
      assert longer + rest.path == front + ([current.value] + rest.path);
    }
  }

  /** On any table, cyclic or not, the walk visits exactly the maximal
      repetition-free pointer path, no longer than the table, and it fails exactly
      when that path runs into an absent id. */
  lemma {:induction false} WalkIsMaximal(rows: Table, start: Id)
    ensures var walk := WalkFrom(rows, {}, Some(start));
      && Maximal(rows, start, walk.path)
      && |walk.path| <= |rows|
      && (walk.end.Missing? <==> After(rows, start, walk.path).Some? && After(rows, start, walk.path).value !in rows)
      && (walk.end.Missing? ==> After(rows, start, walk.path) == Some(walk.end.id))
  {
    hide WalkFrom, Maximal, PointerPath, Distinct;
    NothingVisited(rows, start);
    WalkExtends(rows, start, [], {});
    var walk := WalkFrom(rows, {}, Some(start));
    assert [] + walk.path == walk.path;
    MaximalLength(rows, start, walk.path);
  }

  lemma NothingVisited(rows: Table, start: Id)
    ensures PointerPath(rows, start, []) && Distinct<Id>([])
    ensures After(rows, start, []) == Some(start)
  {
  }

  lemma MaximalLength(rows: Table, start: Id, path: seq<Id>)
    requires Maximal(rows, start, path)
    ensures |path| <= |rows|
  {
    DistinctLength(path, rows.Keys);
  }

  /** There is only one such path. */
  lemma MaximalIsUnique(rows: Table, start: Id, a: seq<Id>, b: seq<Id>)
    requires Maximal(rows, start, a) && Maximal(rows, start, b)
    ensures a == b
  {
    CommonPrefix(rows, start, a, b, if |a| < |b| then |a| else |b|);
    if |a| <= |b| {
      NoLonger(rows, start, a, b);
    } else {
      NoLonger(rows, start, b, a);
    }
  }

  lemma {:induction false} CommonPrefix(rows: Table, start: Id, a: seq<Id>, b: seq<Id>, n: nat)
    requires PointerPath(rows, start, a) && PointerPath(rows, start, b)
    requires n <= |a| && n <= |b|
    ensures a[..n] == b[..n]
  {
    if n > 0 {
      CommonPrefix(rows, start, a, b, n - 1);
      if n > 1 {
        assert a[n - 2] == a[..n - 1][n - 2] == b[..n - 1][n - 2] == b[n - 2];
        assert rows[a[n - 2]].previousResponseId == Some(a[n - 2 + 1]);
        assert rows[b[n - 2]].previousResponseId == Some(b[n - 2 + 1]);
      }
      assert a[n - 1] == b[n - 1];
      assert a[..n] == a[..n - 1] + [a[n - 1]];
      assert b[..n] == b[..n - 1] + [b[n - 1]];
    }
  }

  lemma GoesOn(rows: Table, start: Id, path: seq<Id>, n: nat)
    requires PointerPath(rows, start, path) && Distinct(path) && n < |path|
    ensures After(rows, start, path[..n]) == Some(path[n])
    ensures path[n] in rows && path[n] !in path[..n]
  {
    if n > 0 {
      assert rows[path[n - 1]].previousResponseId == Some(path[n - 1 + 1]);
    }
  }

  lemma NoLonger(rows: Table, start: Id, a: seq<Id>, b: seq<Id>)
    requires Maximal(rows, start, a)
    requires PointerPath(rows, start, b) && Distinct(b)
    requires |a| <= |b| && a == b[..|a|]
    ensures a == b
  {
    if |a| < |b| {
      GoesOn(rows, start, b, |a|);
    }
  }

  // ---- Statements that change no pointer ----

  ghost predicate SamePointers(a: Table, b: Table) {
    a.Keys == b.Keys && forall id :: id in a ==> a[id].previousResponseId == b[id].previousResponseId
  }

  lemma {:induction false} SamePointersSameWalk(a: Table, b: Table, seen: set<Id>, current: Option<Id>)
    requires SamePointers(a, b)
    ensures WalkFrom(a, seen, current) == WalkFrom(b, seen, current)
    decreases a.Keys - seen
  {
    if current.Some? && current.value !in seen && current.value in a {
      SamePointersSameWalk(a, b, seen + {current.value}, a[current.value].previousResponseId);
    }
  }

  /** Cancelling a row changes no walk and no chain. */
  lemma CancelChangesNoChain(rows: Table, id: Id, now: int, previous: Id)
    ensures ChainOf(Cancelled(rows, id, now), previous) == ChainOf(rows, previous)
  {
    var after := Cancelled(rows, id, now);
    SamePointersSameWalk(rows, after, {}, Some(previous));
    WalkStaysInside(rows, {}, Some(previous));
    var path := WalkFrom(rows, {}, Some(previous)).path;
    assert ItemsAlong(after, path) == ItemsAlong(rows, path);
  }
}
