/** Listing the stored responses page by page (crates/copenai-store/src/responses.rs,
    list; crates/copenai-server/src/responses/orchestrator.rs, list). */
module ResponsePages {
  import opened Wrappers
  import opened Sequences
  import opened Responses

  datatype ResponseList = ResponseList(data: seq<StoredResponse>, firstId: string, lastId: string, hasMore: bool)

  function PageLimit(limit: Option<nat>): nat {
    var asked := limit.GetOr(20);
    if asked < 1 then 1 else if asked > 100 then 100 else asked
  }

  /** a comes strictly later than b in the direction of the listing. */
  predicate Beyond(a: StoredResponse, b: StoredResponse, desc: bool) {
    if desc then a.createdAt < b.createdAt else a.createdAt > b.createdAt
  }

  /** The rows a query selects: the cursor's own creation time is looked up, and an
      unknown cursor selects nothing. */
  predicate Matches(row: StoredResponse, rows: Table, after: Option<Id>, desc: bool) {
    after.Some? ==> after.value in rows && Beyond(row, rows[after.value], desc)
  }

  ghost predicate InOrder(s: seq<StoredResponse>, desc: bool) {
    forall i, j :: 0 <= i < j < |s| ==> !Beyond(s[i], s[j], desc)
  }

  /** Every selected row once, by creation time; the database may put rows created
      at the same time in any order, and in another order for every query. */
  ghost predicate Selection(s: seq<StoredResponse>, rows: Table, after: Option<Id>, desc: bool) {
    && Distinct(s)
    && InOrder(s, desc)
    && forall row :: row in s <==> row in rows.Values && Matches(row, rows, after, desc)
  }

  function Front(s: seq<StoredResponse>, limit: nat): seq<StoredResponse> {
    if |s| > limit then s[..limit] else s
  }

  method List(selected: seq<StoredResponse>, rows: Table, limit: Option<nat>, after: Option<Id>, order: Option<string>)
    returns (list: ResponseList)
    requires Selection(selected, rows, after, order != Some("asc"))
    ensures Answers(list, rows, after, order != Some("asc"), PageLimit(limit))
    ensures after.Some? && after.value !in rows ==> list == ResponseList([], "", "", false)
    ensures order == Some("asc") ==> OldestAfter(list.data, rows, after, PageSize(limit))
    ensures order != Some("asc") ==> NewestBefore(list.data, rows, after, PageSize(limit))
    ensures list.hasMore <==> |list.data| == PageSize(limit)
    ensures list.data == [] ==> list.firstId == "" && list.lastId == ""
  {
    var most := PageLimit(limit);
    var data := Front(selected, most);
    assert selected != [] ==> Matches(selected[0], rows, after, order != Some("asc"));
    var firstId := if data == [] then "" else data[0].id;
    var lastId := if data == [] then "" else data[|data| - 1].id;
    list := ResponseList(data, firstId, lastId, |data| >= most);
    FrontIsExtreme(selected, rows, after, limit, order);
  }

  /** Twenty unless asked otherwise, and from one to a hundred. */
  function PageSize(limit: Option<nat>): nat {
    match limit
    case None => 20
    case Some(n) => if n == 0 then 1 else if n <= 100 then n else 100
  }

  /** The rows created before the cursor's row, if there is a cursor, newest first:
      as many as fit, and none newer is left out. */
  ghost predicate NewestBefore(data: seq<StoredResponse>, rows: Table, after: Option<Id>, size: nat) {
    && |data| <= size
    && (forall i, j :: 0 <= i < j < |data| ==> data[i] != data[j] && data[i].createdAt >= data[j].createdAt)
    && (forall row :: row in data ==>
          && row in rows.Values
          && (after.Some? ==> after.value in rows && row.createdAt < rows[after.value].createdAt))
    && forall id :: id in rows && rows[id] !in data
                    && (after.Some? ==> after.value in rows && rows[id].createdAt < rows[after.value].createdAt)
         ==> |data| == size && forall row :: row in data ==> row.createdAt >= rows[id].createdAt
  }

  /** The rows created after the cursor's row, oldest first, in the same way. */
  ghost predicate OldestAfter(data: seq<StoredResponse>, rows: Table, after: Option<Id>, size: nat) {
    && |data| <= size
    && (forall i, j :: 0 <= i < j < |data| ==> data[i] != data[j] && data[i].createdAt <= data[j].createdAt)
    && (forall row :: row in data ==>
          && row in rows.Values
          && (after.Some? ==> after.value in rows && row.createdAt > rows[after.value].createdAt))
    && forall id :: id in rows && rows[id] !in data
                    && (after.Some? ==> after.value in rows && rows[id].createdAt > rows[after.value].createdAt)
         ==> |data| == size && forall row :: row in data ==> row.createdAt <= rows[id].createdAt
  }

  lemma InFront(s: seq<StoredResponse>, limit: nat, j: nat)
    requires j < |s| && j < limit
    ensures s[j] in Front(s, limit)
  {
    assert Front(s, limit)[j] == s[j];
  }

  lemma {:induction false} FrontIsExtreme(s: seq<StoredResponse>, rows: Table, after: Option<Id>, limit: Option<nat>,
                       order: Option<string>)
    requires Selection(s, rows, after, order != Some("asc"))
    ensures PageLimit(limit) == PageSize(limit)
    ensures order == Some("asc") ==> OldestAfter(Front(s, PageLimit(limit)), rows, after, PageSize(limit))
    ensures order != Some("asc") ==> NewestBefore(Front(s, PageLimit(limit)), rows, after, PageSize(limit))
  {
    var size := PageLimit(limit);
    var data := Front(s, size);
    forall row | row in data ensures row in s {
    }
    forall id | id in rows && rows[id] !in data && Matches(rows[id], rows, after, order != Some("asc"))
      ensures |data| == size && forall row :: row in data ==> !Beyond(row, rows[id], order != Some("asc"))
    {
      assert rows[id] in s;
      var j :| 0 <= j < |s| && s[j] == rows[id];
      if j < size {
        InFront(s, size, j);
        assert false;
      }
    }
  }

  ghost predicate Answers(list: ResponseList, rows: Table, after: Option<Id>, desc: bool, limit: nat) {
    && (exists s :: Selection(s, rows, after, desc) && list.data == Front(s, limit))
    && (list.data != [] ==> list.firstId == list.data[0].id && list.lastId == list.data[|list.data| - 1].id)
    && list.hasMore == (|list.data| >= limit)
  }

  /** A client's whole run: the next page is asked for after the last id, for as
      long as there is said to be more. */
  ghost predicate Followed(pages: seq<ResponseList>, rows: Table, after: Option<Id>, desc: bool, limit: nat)
    decreases |pages|
  {
    && pages != []
    && Answers(pages[0], rows, after, desc, limit)
    && if pages[0].hasMore then Followed(pages[1..], rows, Some(pages[0].lastId), desc, limit) else |pages| == 1
  }

  function Shown(pages: seq<ResponseList>): seq<StoredResponse> {
    if pages == [] then [] else pages[0].data + Shown(pages[1..])
  }

  /** Rows are stored under their own ids. */
  ghost predicate Keyed(rows: Table) {
    forall id :: id in rows ==> rows[id].id == id
  }

  /** Pages of this size, counted from a given row on, never end between two rows
      created at the same time. */
  predicate NoTieSplit(s: seq<StoredResponse>, limit: nat)
    requires limit >= 1
    decreases |s|
  {
    |s| <= limit || (s[limit - 1].createdAt != s[limit].createdAt && NoTieSplit(s[limit..], limit))
  }

  lemma {:induction false} NoTieSplitAt(s: seq<StoredResponse>, limit: nat, m: nat)
    requires limit >= 1 && NoTieSplit(s, limit)
    requires m >= 1 && m * limit < |s|
    ensures s[m * limit - 1].createdAt != s[m * limit].createdAt
  {
    assert m * limit == (m - 1) * limit + limit;
    if m > 1 {
      assert (m - 1) * limit >= limit;
      NoTieSplitAt(s[limit..], limit, m - 1);
      assert s[limit..][(m - 1) * limit] == s[m * limit];
      assert s[limit..][(m - 1) * limit - 1] == s[m * limit - 1];
    }
  }

  lemma {:induction false} TieSplitSomewhere(s: seq<StoredResponse>, limit: nat) returns (m: nat)
    requires limit >= 1 && !NoTieSplit(s, limit)
    ensures m >= 1 && 0 < m * limit < |s| && s[m * limit - 1].createdAt == s[m * limit].createdAt
  {
    if s[limit - 1].createdAt == s[limit].createdAt {
      m := 1;
    } else {
      var before := TieSplitSomewhere(s[limit..], limit);
      m := before + 1;
      assert m * limit == before * limit + limit;
    }
  }

  // ---- Two selections of the same rows agree on every creation time ----

  lemma DistinctPrefix(s: seq<StoredResponse>, n: nat)
    requires n <= |s|
    ensures |set k | 0 <= k < n :: s[k]| <= n
  {
    if n > 0 {
      DistinctPrefix(s, n - 1);
      assert (set k | 0 <= k < n :: s[k]) == (set k | 0 <= k < n - 1 :: s[k]) + {s[n - 1]};
    }
  }

  lemma NotBeyond(s: seq<StoredResponse>, t: seq<StoredResponse>, desc: bool, i: nat)
    requires Distinct(s) && InOrder(s, desc) && InOrder(t, desc)
    requires forall row :: row in s ==> row in t
    requires i < |s| && i < |t|
    ensures !Beyond(t[i], s[i], desc)
  {
    if Beyond(t[i], s[i], desc) {
      var early := set k | 0 <= k < i :: t[k];
      forall row | row in s[..i + 1] ensures row in early {
        assert row in t;
        var k :| 0 <= k < |t| && t[k] == row;
        assert k < i;
      }
      DistinctPrefix(t, i);
      DistinctLength(s[..i + 1], early);
      assert false;
    }
  }

  lemma SameTimes(s: seq<StoredResponse>, t: seq<StoredResponse>, desc: bool)
    requires Distinct(s) && Distinct(t) && InOrder(s, desc) && InOrder(t, desc)
    requires forall row :: row in s <==> row in t
    ensures |s| == |t|
    ensures forall i :: 0 <= i < |s| ==> s[i].createdAt == t[i].createdAt
  {
    DistinctPrefix(s, |s|);
    DistinctPrefix(t, |t|);
    DistinctLength(s, set k | 0 <= k < |t| :: t[k]);
    DistinctLength(t, set k | 0 <= k < |s| :: s[k]);
    forall i | 0 <= i < |s| ensures s[i].createdAt == t[i].createdAt {
      NotBeyond(s, t, desc, i);
      NotBeyond(t, s, desc, i);
    }
  }

  // ---- The run ----

  /** Where the rows strictly beyond a full page begin. */
  function Skip(s: seq<StoredResponse>, k: nat): (j: nat)
    requires 1 <= k <= |s|
    ensures k <= j <= |s|
    ensures forall i :: k <= i < j ==> s[i].createdAt == s[k - 1].createdAt
    ensures j < |s| ==> s[j].createdAt != s[k - 1].createdAt
    decreases |s| - k
  {
    if k < |s| && s[k].createdAt == s[k - 1].createdAt then Skip(s, k + 1) else k
  }

  lemma {:induction false} NotBeyondPage(s: seq<StoredResponse>, desc: bool, limit: nat, k: nat)
    requires 1 <= limit <= |s| && InOrder(s, desc) && k < Skip(s, limit)
    ensures !Beyond(s[k], s[limit - 1], desc)
  {
  }

  lemma {:induction false} NextSelection(s: seq<StoredResponse>, rows: Table, after: Option<Id>, desc: bool, limit: nat,
                      last: StoredResponse)
    requires Keyed(rows) && 1 <= limit <= |s|
    requires Selection(s, rows, after, desc)
    requires last in s && last.createdAt == s[limit - 1].createdAt
    ensures Selection(s[Skip(s, limit)..], rows, Some(last.id), desc)
  {
    var j := Skip(s, limit);
    assert last in rows.Values && rows[last.id] == last;
    forall row
      ensures row in s[j..] <==> row in rows.Values && Matches(row, rows, Some(last.id), desc)
    {
      if row in s[j..] {
        var k :| j <= k < |s| && s[k] == row;
        SkippedTime(s, desc, limit, k);
      } else if row in rows.Values && Matches(row, rows, Some(last.id), desc) {
        assert row in s;
        var k :| 0 <= k < j && s[k] == row;
        NotBeyondPage(s, desc, limit, k);
      }
    }
  }

  ghost predicate Complete(shown: seq<StoredResponse>, s: seq<StoredResponse>) {
    forall row :: row in s ==> row in shown
  }

  /** Two selections of the same rows: they agree on every creation time. */
  ghost predicate SameRows(s: seq<StoredResponse>, t: seq<StoredResponse>, desc: bool) {
    && |s| == |t|
    && Distinct(s) && Distinct(t) && InOrder(s, desc) && InOrder(t, desc)
    && (forall row :: row in s <==> row in t)
    && forall i :: 0 <= i < |s| ==> s[i].createdAt == t[i].createdAt
  }

  /** A full first page in the database's own order t, then whatever the later pages
      show of the rows strictly beyond it. */
  lemma {:induction false} PageThenRest(t: seq<StoredResponse>, s: seq<StoredResponse>, later: seq<StoredResponse>,
                                        desc: bool, limit: nat)
    requires 1 <= limit <= |s| && SameRows(s, t, desc)
    requires Distinct(later) && forall row :: row in later ==> row in s[Skip(s, limit)..]
    ensures Distinct(t[..limit] + later)
    ensures forall row :: row in t[..limit] + later ==> row in s
    ensures Skip(s, limit) == limit ==> (Complete(t[..limit] + later, s) <==> Complete(later, s[limit..]))
    ensures Skip(s, limit) > limit ==> !Complete(t[..limit] + later, s)
  {
    var page, j := t[..limit], Skip(s, limit);
    PageApart(t, s, desc, limit);
    hide Skip, InOrder;
    assert forall row :: row in later ==> row !in page;
    JoinDistinct(page, later);
    forall row | row in page + later ensures row in s {
      if row in page {
        assert row in t;
      }
    }
    if j == limit {
      forall row | row in s && row !in s[j..] ensures row in page {
        var k :| 0 <= k < |t| && t[k] == row;
        if k >= limit {
          BeyondPage(t, s, desc, limit, k);
        }
      }
      forall row | row in s[limit..] ensures row !in page && row in s {}
    } else {
      var lost := t[limit];
      assert lost in s;
      assert lost !in page;
      assert lost !in s[j..] by {
        forall k | j <= k < |s| ensures s[k] != lost { SkippedTime(s, desc, limit, k); }
      }
    }
  }

  lemma JoinDistinct(a: seq<StoredResponse>, b: seq<StoredResponse>)
    requires Distinct(a) && Distinct(b) && forall row :: row in b ==> row !in a
    ensures Distinct(a + b)
  {
    forall i, j | 0 <= i < j < |a + b| ensures (a + b)[i] != (a + b)[j] {
      if i < |a| <= j {
        assert b[j - |a|] in b;
      }
    }
  }

  lemma {:induction false} SkippedTime(s: seq<StoredResponse>, desc: bool, limit: nat, k: nat)
    requires 1 <= limit <= |s| && InOrder(s, desc) && Skip(s, limit) <= k < |s|
    ensures Beyond(s[k], s[limit - 1], desc)
  {
    var j := Skip(s, limit);
    assert !Beyond(s[limit - 1], s[j], desc);
    assert k > j ==> !Beyond(s[j], s[k], desc);
  }

  lemma {:induction false} PageApart(t: seq<StoredResponse>, s: seq<StoredResponse>, desc: bool, limit: nat)
    requires 1 <= limit <= |s| == |t| && InOrder(s, desc)
    requires forall i :: 0 <= i < |s| ==> s[i].createdAt == t[i].createdAt
    ensures forall row :: row in t[..limit] ==> row !in s[Skip(s, limit)..]
  {
    forall i, k | 0 <= i < limit && Skip(s, limit) <= k < |s| ensures t[i] != s[k] {
      SkippedTime(s, desc, limit, k);
      NotBeyondPage(s, desc, limit, i);
    }
  }

  lemma {:induction false} BeyondPage(t: seq<StoredResponse>, s: seq<StoredResponse>, desc: bool, limit: nat, k: nat)
    requires 1 <= limit <= |s| == |t| && InOrder(s, desc) && Skip(s, limit) == limit <= k < |t|
    requires forall i :: 0 <= i < |s| ==> s[i].createdAt == t[i].createdAt
    requires t[k] in s
    ensures t[k] in s[limit..]
  {
    SkippedTime(s, desc, limit, k);
    var i :| 0 <= i < |s| && s[i] == t[k];
    if i < limit {
      NotBeyondPage(s, desc, limit, i);
    }
    assert s[limit..][i - limit] == t[k];
  }

  /** The first page of a run, cut from the database's own order t. */
  lemma FirstAnswer(pages: seq<ResponseList>, s: seq<StoredResponse>, rows: Table, after: Option<Id>,
                    desc: bool, limit: nat)
    returns (t: seq<StoredResponse>)
    requires limit >= 1
    requires Selection(s, rows, after, desc) && Followed(pages, rows, after, desc, limit)
    ensures pages != [] && SameRows(s, t, desc) && pages[0].data == Front(t, limit)
    ensures |s| < limit ==> |pages| == 1
    ensures |s| >= limit ==> Followed(pages[1..], rows, Some(t[limit - 1].id), desc, limit)
  {
    t :| Selection(t, rows, after, desc) && pages[0].data == Front(t, limit);
    SameTimes(s, t, desc);
    hide InOrder, Distinct, Matches, Beyond;
    assert SameRows(s, t, desc);
  }

  /** What the first page of a run is, and where the next query starts. */
  lemma {:induction false} RunUnfolds(pages: seq<ResponseList>, s: seq<StoredResponse>, rows: Table, after: Option<Id>,
                   desc: bool, limit: nat)
    returns (t: seq<StoredResponse>)
    requires limit >= 1 && Keyed(rows)
    requires Selection(s, rows, after, desc) && Followed(pages, rows, after, desc, limit)
    ensures pages != [] && SameRows(s, t, desc)
    ensures |s| < limit ==> |pages| == 1 && Shown(pages) == t
    ensures |s| >= limit ==>
      && Shown(pages) == t[..limit] + Shown(pages[1..])
      && Followed(pages[1..], rows, Some(t[limit - 1].id), desc, limit)
      && Selection(s[Skip(s, limit)..], rows, Some(t[limit - 1].id), desc)
  {
    t := FirstAnswer(pages, s, rows, after, desc, limit);
    assert |s| == |t|;
    hide *;
    ShownFirst(pages, t, limit);
    if |s| >= limit {
      AfterFirst(s, t, rows, after, desc, limit);
    }
  }

  lemma {:induction false} ShownFirst(pages: seq<ResponseList>, t: seq<StoredResponse>, limit: nat)
    requires pages != [] && pages[0].data == Front(t, limit)
    ensures |t| < limit && |pages| == 1 ==> Shown(pages) == t
    ensures |t| >= limit ==> Shown(pages) == t[..limit] + Shown(pages[1..])
  {
    if |pages| == 1 {
      assert pages[1..] == [];
      assert Shown(pages) == pages[0].data + [];
    }
    if |t| == limit {
      assert t[..limit] == t;
    }
  }

  lemma {:induction false} AfterFirst(s: seq<StoredResponse>, t: seq<StoredResponse>, rows: Table, after: Option<Id>,
                                      desc: bool, limit: nat)
    requires 1 <= limit <= |s| && Keyed(rows) && Selection(s, rows, after, desc) && SameRows(s, t, desc)
    ensures Selection(s[Skip(s, limit)..], rows, Some(t[limit - 1].id), desc)
  {
    assert t[limit - 1] in t;
    hide Selection, InOrder, Distinct, Keyed, Skip;
    NextSelection(s, rows, after, desc, limit, t[limit - 1]);
  }

  lemma OnePageMore(n: int, limit: nat)
    ensures n * limit == (n - 1) * limit + limit
  {
  }

  lemma {:induction false} RunIsShort(pages: seq<ResponseList>, s: seq<StoredResponse>, rows: Table, after: Option<Id>,
                                      desc: bool, limit: nat)
    requires limit >= 1 && Keyed(rows)
    requires Selection(s, rows, after, desc)
    requires Followed(pages, rows, after, desc, limit)
    ensures (|pages| - 1) * limit <= |s|
    decreases |pages|
  {
    var t := RunUnfolds(pages, s, rows, after, desc, limit);
    hide *;
    if |s| >= limit {
      RunIsShort(pages[1..], s[Skip(s, limit)..], rows, Some(t[limit - 1].id), desc, limit);
      OnePageMore(|pages| - 1, limit);
    }
  }

  /** No run shows a row twice, and it shows every row the first query selects
      exactly when no page ends inside a group of rows of the same time. */
  lemma {:induction false} RunShows(pages: seq<ResponseList>, s: seq<StoredResponse>, rows: Table, after: Option<Id>,
                                    desc: bool, limit: nat)
    requires limit >= 1 && Keyed(rows)
    requires Selection(s, rows, after, desc)
    requires Followed(pages, rows, after, desc, limit)
    ensures Distinct(Shown(pages))
    ensures forall row :: row in Shown(pages) ==> row in s
    ensures Complete(Shown(pages), s) <==> NoTieSplit(s, limit)
    decreases |pages|
  {
    hide Selection, InOrder, Distinct, Followed, Skip, NoTieSplit, Shown, Keyed;
    var t := RunUnfolds(pages, s, rows, after, desc, limit);
    TieUnfolds(s, limit);
    if |s| < limit {
      assert Distinct(t) && Complete(t, s);
    } else {
      hide Complete, SameRows;
      RunShows(pages[1..], s[Skip(s, limit)..], rows, Some(t[limit - 1].id), desc, limit);
      PageThenRest(t, s, Shown(pages[1..]), desc, limit);
    }
  }

  lemma {:induction false} TieUnfolds(s: seq<StoredResponse>, limit: nat)
    requires limit >= 1
    ensures |s| < limit ==> NoTieSplit(s, limit)
    ensures |s| >= limit && Skip(s, limit) > limit ==> !NoTieSplit(s, limit)
    ensures |s| >= limit && Skip(s, limit) == limit ==> (NoTieSplit(s, limit) <==> NoTieSplit(s[limit..], limit))
  {
    if |s| == limit {
      assert s[limit..] == [];
    }
  }

  /** There always is such a run, so the above is not about nothing. */
  lemma {:induction false} RunExists(s: seq<StoredResponse>, rows: Table, after: Option<Id>, desc: bool, limit: nat)
    returns (pages: seq<ResponseList>)
    requires limit >= 1 && Keyed(rows)
    requires Selection(s, rows, after, desc)
    ensures Followed(pages, rows, after, desc, limit)
    decreases |s|
  {
    var data := Front(s, limit);
    var lastId := if data == [] then "" else data[|data| - 1].id;
    var first := ResponseList(data, if data == [] then "" else data[0].id, lastId, |data| >= limit);
    assert Answers(first, rows, after, desc, limit);
    if |s| < limit {
      pages := [first];
    } else {
      NextSelection(s, rows, after, desc, limit, s[limit - 1]);
      var later := RunExists(s[Skip(s, limit)..], rows, Some(lastId), desc, limit);
      pages := [first] + later;
      assert pages[1..] == later;
    }
  }

  /** Paging through an unchanged table ends, never shows a row twice, and shows
      every row exactly when no page boundary, at a multiple of the page size, falls
      between two rows created at the same time. Distinct times suffice. */
  lemma {:induction false} PagingShowsAll(pages: seq<ResponseList>, s: seq<StoredResponse>, rows: Table,
                                          limit: Option<nat>, order: Option<string>)
    requires Keyed(rows)
    requires Selection(s, rows, None, order != Some("asc"))
    requires Followed(pages, rows, None, order != Some("asc"), PageLimit(limit))
    ensures var size := PageLimit(limit);
      && Distinct(Shown(pages)) && (|pages| - 1) * size <= |s|
      && (forall row :: row in Shown(pages) ==> row in rows.Values)
      && ((forall id :: id in rows ==> rows[id] in Shown(pages))
          <==> forall m :: m >= 1 && 0 < m * size < |s| ==> s[m * size - 1].createdAt != s[m * size].createdAt)
    ensures (forall a, b :: a in rows && b in rows && a != b ==> rows[a].createdAt != rows[b].createdAt)
      ==> forall id :: id in rows ==> rows[id] in Shown(pages)
  {
    var size := PageLimit(limit);
    RunShows(pages, s, rows, None, order != Some("asc"), size);
    RunIsShort(pages, s, rows, None, order != Some("asc"), size);
    if NoTieSplit(s, size) {
      forall m: nat | m >= 1 && 0 < m * size < |s| ensures s[m * size - 1].createdAt != s[m * size].createdAt {
        NoTieSplitAt(s, size, m);
      }
    } else {
      var m := TieSplitSomewhere(s, size);
      assert s[m * size - 1].createdAt == s[m * size].createdAt;
      TieHasTwo(s, rows, m * size);
    }
    forall id | id in rows ensures rows[id] in s {
      assert rows[id] in rows.Values;
    }
  }

  lemma TieHasTwo(s: seq<StoredResponse>, rows: Table, k: nat)
    requires Distinct(s) && 1 <= k < |s| && s[k - 1].createdAt == s[k].createdAt
    requires forall row :: row in s ==> row in rows.Values
    ensures exists a, b :: a in rows && b in rows && a != b && rows[a].createdAt == rows[b].createdAt
  {
    assert s[k - 1] in s && s[k] in s;
    var a :| a in rows && rows[a] == s[k - 1];
    var b :| b in rows && rows[b] == s[k];
  }

  // ---- Every query can be answered ----

  lemma {:induction false} LatestOf(rows: set<StoredResponse>, desc: bool) returns (latest: StoredResponse)
    requires rows != {}
    ensures latest in rows && forall row :: row in rows ==> !Beyond(row, latest, desc)
  {
    var one :| one in rows;
    latest := one;
    var others := rows - {one};
    if others != {} {
      var other := LatestOf(others, desc);
      if Beyond(other, one, desc) {
        latest := other;
      }
    }
    forall row | row in rows ensures !Beyond(row, latest, desc) {
      assert row == one || row in others;
    }
  }

  lemma {:induction false} Sorted(rows: set<StoredResponse>, desc: bool) returns (s: seq<StoredResponse>)
    ensures Distinct(s) && InOrder(s, desc)
    ensures forall row :: row in s <==> row in rows
  {
    s := [];
    if rows != {} {
      var latest := LatestOf(rows, desc);
      var front := Sorted(rows - {latest}, desc);
      s := front + [latest];
      forall i | 0 <= i < |front| ensures front[i] != latest && !Beyond(front[i], latest, desc) {
        assert front[i] in front;
      }
    }
  }

  lemma SelectionExists(rows: Table, after: Option<Id>, desc: bool) returns (s: seq<StoredResponse>)
    ensures Selection(s, rows, after, desc)
  {
    var selected := set row | row in rows.Values && Matches(row, rows, after, desc);
    s := Sorted(selected, desc);
  }

  /** Two responses created at the same time, listed one to a page: whichever comes
      first, the other is never shown. */
  lemma {:induction false} TieSkipsARow(rows: Table, pages: seq<ResponseList>, order: Option<string>)
    requires Keyed(rows) && |rows| == 2
    requires forall a, b :: a in rows && b in rows ==> rows[a].createdAt == rows[b].createdAt
    requires Followed(pages, rows, None, order != Some("asc"), PageLimit(Some(1)))
    ensures exists id :: id in rows && rows[id] !in Shown(pages)
  {
    var desc := order != Some("asc");
    var s := SelectionExists(rows, None, desc);
    TwoSelected(rows, s, desc);
    PagingShowsAll(pages, s, rows, Some(1), order);
    hide *;
    assert PageLimit(Some(1)) == 1 by { OnePerPage(); }
    assert 1 * 1 == 1 && s[1 * 1 - 1].createdAt == s[1 * 1].createdAt;
  }

  lemma OnePerPage()
    ensures PageLimit(Some(1)) == 1
  {
  }

  lemma TwoSelected(rows: Table, s: seq<StoredResponse>, desc: bool)
    requires Keyed(rows) && |rows| == 2 && Selection(s, rows, None, desc)
    requires forall a, b :: a in rows && b in rows ==> rows[a].createdAt == rows[b].createdAt
    ensures |s| >= 2 && s[0].createdAt == s[1].createdAt
  {
    hide InOrder;
    var a :| a in rows;
    var rest := rows.Keys - {a};
    assert |rest| == 1;
    var b :| b in rest;
    assert rows[a] in rows.Values && rows[b] in rows.Values;
    assert rows[a] in s && rows[b] in s && rows[a].id != rows[b].id;
    assert s[0] in s && s[1] in s;
  }

  /** And there are such listings. */
  lemma TiesHappen(row: StoredResponse, desc: bool) returns (rows: Table, pages: seq<ResponseList>)
    ensures Keyed(rows) && |rows| == 2
    ensures forall a, b :: a in rows && b in rows ==> rows[a].createdAt == rows[b].createdAt
    ensures Followed(pages, rows, None, desc, 1)
  {
    rows := map["a" := row.(id := "a"), "b" := row.(id := "b")];
    assert rows.Keys == {"a", "b"};
    assert |rows| == |rows.Keys|;
    var s := SelectionExists(rows, None, desc);
    pages := RunExists(s, rows, None, desc, 1);
  }
}
