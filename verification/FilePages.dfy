/** Listing the staged files page by page (crates/copenai-server/src/routes.rs,
    list_files). */
module FilePages {
  import opened Wrappers
  import opened Sequences

  datatype StagedFile = StagedFile(fileId: string, filename: string, bytes: nat)

  datatype FileList = FileList(data: seq<StagedFile>, firstId: string, lastId: string, hasMore: bool)

  function Clamp(n: nat, low: nat, high: nat): nat {
    if n < low then low else if n > high then high else n
  }

  function Limit(limit: Option<nat>): nat {
    Clamp(limit.GetOr(10000), 1, 10000)
  }

  function Position(files: seq<StagedFile>, id: string): (r: Option<nat>)
    ensures r.None? ==> forall f :: f in files ==> f.fileId != id
    ensures r.Some? ==> r.value < |files| && files[r.value].fileId == id
    ensures r.Some? ==> forall k :: 0 <= k < r.value ==> files[k].fileId != id
  {
    if files == [] then None
    else if files[0].fileId == id then Some(0)
    else
      var rest := Position(files[1..], id);
      if rest.None? then None else Some(rest.value + 1)
  }

  /** Where the page after a cursor begins; past the end for an unknown one. */
  function StartAfter(files: seq<StagedFile>, after: Option<string>): (k: nat)
    ensures k <= |files|
  {
    if after.GetOr("") == "" then 0 else
      var position := Position(files, after.value);
      if position.None? then |files| else position.value + 1
  }

  /** Newest first unless asked otherwise. */
  predicate Descending(order: Option<string>) {
    order != Some("asc")
  }

  function Ordered(staged: seq<StagedFile>, order: Option<string>): seq<StagedFile> {
    if Descending(order) then Reverse(staged) else staged
  }

  method ListFiles(staged: seq<StagedFile>, limit: Option<nat>, order: Option<string>, after: Option<string>)
    returns (page: FileList)
    ensures page == PageAfter(Ordered(staged, order), Limit(limit), after)
    ensures PageOf(staged, limit, order, after, page)
  {
    hide Position, Clamp, Descending, Reverse, FirstId, LastId;
    var files := staged;
    if Descending(order) {
      files := Reverse(files);
    }
    if after.Some? && after.value != "" {
      var position := FindPosition(files, after.value);
      files := if position.Some? then files[position.value + 1..] else [];
    }
    var most := Limit(limit);
    var hasMore := |files| > most;
    if |files| > most {
      files := files[..most];
    }
    page := FileList(files, FirstId(files), LastId(files), hasMore);
    PageIsOf(staged, limit, order, after);
    hide PageOf;
  }

  /** The k-th file in the order asked for: as stored when "asc", else from the end. */
  function FileAt(staged: seq<StagedFile>, order: Option<string>, k: nat): StagedFile
    requires k < |staged|
  {
    if order == Some("asc") then staged[k] else staged[|staged| - 1 - k]
  }

  /** Ten thousand files unless asked for fewer, and at least one. */
  function PageSize(limit: Option<nat>): nat {
    match limit
    case None => 10000
    case Some(n) => if n == 0 then 1 else if n <= 10000 then n else 10000
  }

  /** The page begins at this position: at the first without a cursor, else behind the
      first file with the cursor's id. */
  ghost predicate BeginsAt(staged: seq<StagedFile>, order: Option<string>, after: Option<string>, start: nat) {
    && start <= |staged|
    && if after.None? || after.value == "" then start == 0
       else
         && start >= 1 && FileAt(staged, order, start - 1).fileId == after.value
         && forall k :: 0 <= k < start - 1 ==> FileAt(staged, order, k).fileId != after.value
  }

  /** The page said of the stored files: what it holds, what its ids are and whether
      more is left. An unknown cursor gives an empty last page. */
  ghost predicate PageOf(staged: seq<StagedFile>, limit: Option<nat>, order: Option<string>, after: Option<string>,
                         page: FileList)
  {
    && (forall start: nat | BeginsAt(staged, order, after, start) ::
          HoldsFrom(staged, limit, order, start, page.data) && (page.hasMore <==> start + |page.data| < |staged|))
    && ((forall start: nat :: !BeginsAt(staged, order, after, start)) ==> page.data == [] && !page.hasMore)
    && page.firstId == (if page.data == [] then "" else page.data[0].fileId)
    && page.lastId == (if page.data == [] then "" else page.data[|page.data| - 1].fileId)
  }

  /** The files from this position on, as many as a page takes. */
  ghost predicate HoldsFrom(staged: seq<StagedFile>, limit: Option<nat>, order: Option<string>, start: nat,
                            data: seq<StagedFile>)
  {
    && start + |data| <= |staged|
    && |data| <= PageSize(limit) && (start + |data| < |staged| ==> |data| == PageSize(limit))
    && forall k :: 0 <= k < |data| ==> data[k] == FileAt(staged, order, start + k)
  }

  lemma OrderedAt(staged: seq<StagedFile>, order: Option<string>)
    ensures |Ordered(staged, order)| == |staged|
    ensures forall k :: 0 <= k < |staged| ==> Ordered(staged, order)[k] == FileAt(staged, order, k)
  {
  }

  /** A listing begins behind its cursor, and nowhere when the cursor is unknown. */
  lemma ListingBegins(staged: seq<StagedFile>, order: Option<string>, after: Option<string>)
    ensures var start := StartAfter(Ordered(staged, order), after);
      if after.GetOr("") == "" || Position(Ordered(staged, order), after.value).Some?
      then BeginsAt(staged, order, after, start)
      else start == |staged| && forall other: nat :: !BeginsAt(staged, order, after, other)
  {
    hide Position, Ordered, FileAt;
    OrderedAt(staged, order);
    var files := Ordered(staged, order);
    if after.GetOr("") != "" && Position(files, after.value).None? {
      forall other: nat ensures !BeginsAt(staged, order, after, other) {
        if 1 <= other <= |staged| {
          assert files[other - 1] in files;
        }
      }
    }
  }

  lemma PageHolds(staged: seq<StagedFile>, limit: Option<nat>, order: Option<string>, after: Option<string>)
    ensures var page := PageAfter(Ordered(staged, order), Limit(limit), after);
      var start := StartAfter(Ordered(staged, order), after);
      && HoldsFrom(staged, limit, order, start, page.data) && (page.hasMore <==> start + |page.data| < |staged|)
  {
    hide StartAfter, Ordered, FileAt;
    OrderedAt(staged, order);
  }

  lemma PageIsOf(staged: seq<StagedFile>, limit: Option<nat>, order: Option<string>, after: Option<string>)
    ensures PageOf(staged, limit, order, after, PageAfter(Ordered(staged, order), Limit(limit), after))
  {
    PageHolds(staged, limit, order, after);
    ListingBegins(staged, order, after);
    var start := StartAfter(Ordered(staged, order), after);
    forall other: nat | BeginsAt(staged, order, after, other) ensures other == start {
      OneBeginning(staged, order, after, other, start);
    }
    hide StartAfter, Ordered, HoldsFrom, BeginsAt, Position;
  }

  lemma OneBeginning(staged: seq<StagedFile>, order: Option<string>, after: Option<string>, a: nat, b: nat)
    requires BeginsAt(staged, order, after, a) && BeginsAt(staged, order, after, b)
    ensures a == b
  {
    hide FileAt;
  }

  method FindPosition(files: seq<StagedFile>, id: string) returns (r: Option<nat>)
    ensures r == Position(files, id)
  {
    for k := 0 to |files|
      invariant forall j :: 0 <= j < k ==> files[j].fileId != id
    {
      if files[k].fileId == id {
        return Some(k);
      }
    }
    r := None;
  }

  function FirstId(files: seq<StagedFile>): string {
    if files == [] then "" else files[0].fileId
  }

  function LastId(files: seq<StagedFile>): string {
    if files == [] then "" else files[|files| - 1].fileId
  }

  function PageAfter(files: seq<StagedFile>, limit: nat, after: Option<string>): FileList {
    var left := files[StartAfter(files, after)..];
    var data := if |left| > limit then left[..limit] else left;
    FileList(data, FirstId(data), LastId(data), |left| > limit)
  }

  /** File ids are names in one directory: not empty, and no two alike. */
  ghost predicate NamedApart(files: seq<StagedFile>) {
    && (forall i :: 0 <= i < |files| ==> files[i].fileId != "")
    && (forall i, j :: 0 <= i < j < |files| ==> files[i].fileId != files[j].fileId)
  }

  lemma StartIsExact(files: seq<StagedFile>, k: nat)
    requires NamedApart(files) && k < |files|
    ensures StartAfter(files, Some(files[k].fileId)) == k + 1
  {
  }

  /** What a client gathers that asks for the next page after the last id for as
      long as there is more. It stops, and has seen every file from the cursor on
      exactly once and in order. */
  ghost function FollowPages(files: seq<StagedFile>, limit: nat, after: Option<string>): (all: seq<StagedFile>)
    requires NamedApart(files) && limit >= 1
    ensures all == files[StartAfter(files, after)..]
    decreases |files| - StartAfter(files, after)
  {
    var page := PageAfter(files, limit, after);
    if !page.hasMore then page.data else
      var last := StartAfter(files, after) + limit - 1;
      StartIsExact(files, last);
      assert page.lastId == files[last].fileId;
      page.data + FollowPages(files, limit, Some(page.lastId))
  }

  /** Every listing, in either order and for any requested limit, ends and shows
      every file once: it is the stored sequence or its reverse. An unknown cursor
      ends a listing at once. */
  lemma ListingIsComplete(staged: seq<StagedFile>, limit: Option<nat>, order: Option<string>, stranger: string)
    requires NamedApart(staged)
    ensures NamedApart(Ordered(staged, order))
    ensures FollowPages(Ordered(staged, order), Limit(limit), None) == Ordered(staged, order)
    ensures stranger != "" && (forall f :: f in staged ==> f.fileId != stranger)
      ==> PageAfter(Ordered(staged, order), Limit(limit), Some(stranger)) == FileList([], "", "", false)
  {
    var files := Ordered(staged, order);
    assert forall k :: 0 <= k < |files| ==> files[k] in staged;
    assert NamedApart(files);
  }
}
