/** What holds of every response in every reachable store. */
module ChainLaws {
  import opened Wrappers
  import opened Sequences
  import opened Responses
  import opened ResponseChain
  import opened Multiplicity
  import opened ChainRuns

  // ---- The pointer graph ----

  function Rank(w: World, current: Option<Id>): nat {
    if current.Some? && current.value in w.requests then w.requests[current.value].serial + 1 else 0
  }

  /** Rows visited earlier are younger, so having seen them changes nothing. */
  lemma {:induction false} SeenIdle(w: World, seen: set<Id>, current: Option<Id>)
    requires Tracked(w) && Backward(w)
    requires forall s :: s in seen ==> s in w.requests && Rank(w, Some(s)) > Rank(w, current)
    ensures WalkFrom(w.rows, seen, current) == WalkFrom(w.rows, {}, current)
    decreases Rank(w, current)
  {
    if current.Some? && current.value in w.rows {
      var next := w.rows[current.value].previousResponseId;
      SeenIdle(w, seen + {current.value}, next);
      SeenIdle(w, {} + {current.value}, next);
    }
  }

  lemma AncestorsUnfold(w: World, id: Id)
    requires Tracked(w) && Backward(w) && id in w.requests
    ensures var previous := w.requests[id].previous;
      Ancestors(w, id) ==
      if previous.Some? && previous.value in w.rows then [previous.value] + Ancestors(w, previous.value) else []
  {
    var previous := w.requests[id].previous;
    if previous.Some? && previous.value in w.rows {
      var p := previous.value;
      SeenIdle(w, {} + {p}, w.rows[p].previousResponseId);
    }
  }

  /** The cycle guard of the walk never cuts: in a reachable store a walk stops
      only where the pointers end or leave the table. */
  lemma {:induction false} GuardNeverCuts(w: World, start: Id)
    requires Inv(w)
    ensures var walk := WalkFrom(w.rows, {}, Some(start));
      && (forall id :: id in walk.path ==> id in w.rows)
      && (walk.end.Finished? ==> After(w.rows, start, walk.path).None?)
      && |walk.path| <= |w.rows|
    decreases Rank(w, Some(start))
  {
    WalkStaysInside(w.rows, {}, Some(start));
    WalkIsMaximal(w.rows, start);
    if start in w.rows {
      var next := w.rows[start].previousResponseId;
      SeenIdle(w, {} + {start}, next);
      if next.Some? {
        GuardNeverCuts(w, next.value);
      }
    }
  }

  /** Pointers of stored rows are dangling or go to an older row; so following
      them from any row never comes back to it. */
  lemma PointersGoBack(w: World, id: Id)
    requires Inv(w) && id in w.rows
    ensures var p := w.rows[id].previousResponseId;
      p.Some? && p.value in w.rows ==> w.requests[p.value].serial < w.requests[id].serial
    ensures id !in Ancestors(w, id)
  {
    OlderAncestors(w, id);
  }

  lemma {:induction false} OlderAncestors(w: World, id: Id)
    requires Tracked(w) && Backward(w) && id in w.requests
    ensures forall a :: a in Ancestors(w, id) ==> a in w.rows && w.requests[a].serial < w.requests[id].serial
    decreases w.requests[id].serial
  {
    AncestorsUnfold(w, id);
    var previous := w.requests[id].previous;
    if previous.Some? && previous.value in w.rows {
      OlderAncestors(w, previous.value);
    }
  }

  // ---- Nothing lost, nothing invented ----

  lemma {:induction false} InheritedPositive(w: World, path: seq<Id>, visible: set<Id>, x: ToolOutput)
    requires forall a :: a in path ==> a in w.requests
    ensures InheritedCount(w, path, visible, x) > 0 <==>
            exists a :: a in path && a in visible && x in w.requests[a].enriched
  {
    if path != [] {
      InheritedPositive(w, path[1..], visible, x);
      CountPositive(w.requests[path[0]].enriched, x);
      assert forall a :: a in path <==> a == path[0] || a in path[1..];
    }
  }

  lemma {:induction false} AncestorsOfAncestors(w: World, id: Id, a: Id)
    requires Tracked(w) && Backward(w) && id in w.requests && a in Ancestors(w, id)
    ensures a in w.rows && forall b :: b in Ancestors(w, a) ==> b in Ancestors(w, id)
    decreases w.requests[id].serial
  {
    AncestorsUnfold(w, id);
    var p := w.requests[id].previous.value;
    if a != p {
      AncestorsOfAncestors(w, p, a);
    }
  }

  /** What an ancestor saw, a request that saw the ancestor sees too: it read that
      row later. */
  lemma ViewsClosed(w: World, id: Id, a: Id)
    requires Inv(w) && id in w.requests && HasInherited(w.requests[id]) && a in w.requests[id].visible
    ensures a in w.requests && HasInherited(w.requests[a]) && a in Ancestors(w, id)
    ensures w.requests[a].serial < w.requests[id].serial
    ensures w.requests[a].visible <= w.requests[id].visible
  {
    assert a in SavedIds(w);
    assert RequestLaw(w, id) && RequestLaw(w, a);
    AncestorsOfAncestors(w, id, a);
    hide WalkFrom, InheritedCount;
  }

  /** x was submitted by an ancestor that was saved when id read its row. */
  ghost predicate FromVisibleAncestor(w: World, id: Id, x: ToolOutput)
    requires id in w.requests
  {
    exists a :: a in Ancestors(w, id) && a in w.requests[id].visible && a in w.requests && x in w.requests[a].own
  }

  /** Whatever the interleaving, a turn works with exactly its own tool outputs and
      those submitted by its ancestors that were saved when it inherited: none is
      lost, none is invented. */
  lemma {:induction false} NoneLostNoneInvented(w: World, id: Id, x: ToolOutput)
    requires Inv(w) && id in w.requests && HasInherited(w.requests[id])
    ensures x in w.requests[id].enriched <==> x in w.requests[id].own || FromVisibleAncestor(w, id, x)
    decreases w.requests[id].serial
  {
    var r := w.requests[id];
    OlderAncestors(w, id);
    var path := Ancestors(w, id);
    assert RequestLaw(w, id);
    assert Count(r.enriched, x) == Count(r.own, x) + InheritedCount(w, path, r.visible, x);
    CountPositive(r.enriched, x);
    CountPositive(r.own, x);
    InheritedPositive(w, path, r.visible, x);
    forall a | a in path && a in r.visible
      ensures x in w.requests[a].enriched ==> FromVisibleAncestor(w, id, x)
      ensures x in w.requests[a].own ==> x in w.requests[a].enriched
    {
      ViewsClosed(w, id, a);
      NoneLostNoneInvented(w, a, x);
      AncestorsOfAncestors(w, id, a);
    }
  }

  // ---- Multiplicity ----

  /** The part of a path that lies in a set, in order. */
  function Among(path: seq<Id>, kept: set<Id>): seq<Id> {
    if path == [] then [] else (if path[0] in kept then [path[0]] else []) + Among(path[1..], kept)
  }

  /** A request and those of its ancestors that count as links, nearest first. With
      the saved responses as links, position d is d saved links back. */
  function Lineage(w: World, id: Id, links: set<Id>): seq<Id>
    requires id in w.requests
  {
    [id] + Among(Ancestors(w, id), links)
  }

  lemma {:induction false} LineageTail(w: World, id: Id, links: set<Id>, k: nat)
    requires Tracked(w) && Backward(w) && id in w.requests && k < |Lineage(w, id, links)|
    ensures var q := Lineage(w, id, links);
      q[k] in w.requests && (k > 0 ==> q[k] in links) && Among(Ancestors(w, q[k]), links) == q[k + 1..]
    decreases w.requests[id].serial
  {
    if k > 0 {
      AncestorsUnfold(w, id);
      var p := w.requests[id].previous.value;
      var rest := Ancestors(w, p);
      assert ([p] + rest)[1..] == rest;
      if p in links {
        assert Lineage(w, id, links)[1..] == Lineage(w, p, links);
        LineageTail(w, p, links, k - 1);
      } else {
        assert Lineage(w, id, links)[1..] == Lineage(w, p, links)[1..];
        LineageTail(w, p, links, k);
      }
    }
  }

  lemma {:induction false} AmongInside(path: seq<Id>, kept: set<Id>)
    ensures forall a :: a in Among(path, kept) <==> a in path && a in kept
  {
    if path != [] {
      AmongInside(path[1..], kept);
      assert forall a :: a in path <==> a == path[0] || a in path[1..];
    }
  }

  /** Leaving out what is not seen changes nothing that is inherited. */
  lemma {:induction false} InheritedAmong(w: World, path: seq<Id>, visible: set<Id>, links: set<Id>, x: ToolOutput)
    requires forall a :: a in path ==> a in w.requests
    requires visible <= links
    ensures forall a :: a in Among(path, links) ==> a in w.requests
    ensures InheritedCount(w, path, visible, x) == InheritedCount(w, Among(path, links), visible, x)
  {
    AmongInside(path, links);
    if path != [] {
      InheritedAmong(w, path[1..], visible, links, x);
      var rest := Among(path[1..], links);
      if path[0] in links {
        assert ([path[0]] + rest)[1..] == rest;
      } else {
        assert [] + rest == rest;
      }
    }
  }

  /** The k-th of a lineage inherited when the i-th was already saved. */
  ghost function Sees(w: World, q: seq<Id>): (nat, nat) -> bool {
    (k: nat, i: nat) => k < |q| && i < |q| && q[k] in w.requests && q[i] in w.requests[q[k]].visible
  }

  ghost function OwnCount(w: World, q: seq<Id>, x: ToolOutput): nat -> nat {
    (k: nat) => if k < |q| && q[k] in w.requests then Count(w.requests[q[k]].own, x) else 0
  }

  ghost function TotalCount(w: World, q: seq<Id>, x: ToolOutput): nat -> nat {
    (k: nat) => if k < |q| && q[k] in w.requests then Count(w.requests[q[k]].enriched, x) else 0
  }

  lemma {:induction false} InheritedAsCount(w: World, q: seq<Id>, x: ToolOutput, k: nat, i: nat)
    requires k < i <= |q|
    requires forall a :: a in q ==> a in w.requests
    ensures Inherited(Sees(w, q), TotalCount(w, q, x), k, i, |q|)
        == InheritedCount(w, q[i..], w.requests[q[k]].visible, x)
    decreases |q| - i
  {
    if i < |q| {
      InheritedAsCount(w, q, x, k, i + 1);
      assert q[i..][0] == q[i] && q[i..][1..] == q[i + 1..];
      var total := TotalCount(w, q, x)(i);
      assert total == Count(w.requests[q[i]].enriched, x);
      assert 1 * total == total && 0 * total == 0;
    }
  }

  /** Copies are only handed on by someone who got some and saw the ancestor saved. */
  lemma {:induction false} CopiesNeedAViewer(sees: (nat, nat) -> bool, i: nat, n: nat)
    requires n <= i
    ensures CopiesVia(sees, i, n) > 0 ==> exists k: nat :: k < n && sees(k, i) && Copies(sees, k) > 0
  {
    if n > 0 {
      CopiesNeedAViewer(sees, i, n - 1);
      assert !sees(n - 1, i) ==> 0 * Copies(sees, n - 1) == 0;
      assert Copies(sees, n - 1) == 0 ==> Weight(sees, n - 1, i) * Copies(sees, n - 1) == 0;
    }
  }

  /** Whoever still hands something on was seen by the response itself. */
  lemma {:induction false} CopiesAreVisible(w: World, id: Id, links: set<Id>, k: nat)
    requires Inv(w) && id in w.requests && HasInherited(w.requests[id]) && 0 < k < |Lineage(w, id, links)|
    requires Copies(Sees(w, Lineage(w, id, links)), k) > 0
    ensures Lineage(w, id, links)[k] in w.requests[id].visible
    decreases k
  {
    var q := Lineage(w, id, links);
    var sees := Sees(w, q);
    CopiesNeedAViewer(sees, k, k);
    var viewer: nat :| viewer < k && sees(viewer, k) && Copies(sees, viewer) > 0;
    if viewer > 0 {
      CopiesAreVisible(w, id, links, viewer);
      ViewsClosed(w, id, q[viewer]);
    }
  }

  lemma {:induction false} LawfulAt(w: World, id: Id, links: set<Id>, x: ToolOutput, k: nat)
    requires Inv(w) && id in w.requests && HasInherited(w.requests[id]) && w.requests[id].visible <= links
    requires k < |Lineage(w, id, links)| && (k == 0 || Copies(Sees(w, Lineage(w, id, links)), k) > 0)
    ensures var q := Lineage(w, id, links);
      TotalCount(w, q, x)(k) == OwnCount(w, q, x)(k) + Inherited(Sees(w, q), TotalCount(w, q, x), k, k + 1, |q|)
  {
    assert Tracked(w) && Backward(w);
    hide Inv, Tracked, Backward, InheritedCount, Inherited, Ancestors, HasInherited, Lineage, Among, Copies, Sees;
    var q := Lineage(w, id, links);
    assert k == 0 ==> q[k] == id by { FirstOfLineage(w, id, links); }
    forall a | a in q ensures a in w.requests {
      var i :| 0 <= i < |q| && q[i] == a;
      LineageTail(w, id, links, i);
    }
    if k > 0 {
      CopiesAreVisible(w, id, links, k);
      ViewsClosed(w, id, q[k]);
    }
    LawAmong(w, q[k], links, x);
    LineageTail(w, id, links, k);
    InheritedAsCount(w, q, x, k, k + 1);
    assert TotalCount(w, q, x)(k) == Count(w.requests[q[k]].enriched, x);
    assert OwnCount(w, q, x)(k) == Count(w.requests[q[k]].own, x);
  }

  lemma FirstOfLineage(w: World, id: Id, links: set<Id>)
    requires id in w.requests
    ensures Lineage(w, id, links) != [] && Lineage(w, id, links)[0] == id
  {
  }

  lemma LineageLawful(w: World, id: Id, links: set<Id>, x: ToolOutput)
    requires Inv(w) && id in w.requests && HasInherited(w.requests[id]) && w.requests[id].visible <= links
    ensures var q := Lineage(w, id, links);
      Lawful(Sees(w, q), OwnCount(w, q, x), TotalCount(w, q, x), |q|)
  {
    hide Inv, Lineage, Sees, OwnCount, TotalCount, Copies, Inherited;
    var q := Lineage(w, id, links);
    forall k: nat | k < |q| && (k == 0 || Copies(Sees(w, q), k) > 0)
      ensures TotalCount(w, q, x)(k) == OwnCount(w, q, x)(k) + Inherited(Sees(w, q), TotalCount(w, q, x), k, k + 1, |q|)
    {
      LawfulAt(w, id, links, x, k);
    }
  }

  /** The law of one response, over its links alone. */
  lemma {:induction false} LawAmong(w: World, id: Id, links: set<Id>, x: ToolOutput)
    requires Inv(w) && id in w.requests && HasInherited(w.requests[id]) && w.requests[id].visible <= links
    ensures var r, rest := w.requests[id], Among(Ancestors(w, id), links);
      && (forall a :: a in rest ==> a in w.requests)
      && Count(r.enriched, x) == Count(r.own, x) + InheritedCount(w, rest, r.visible, x)
  {
    assert RequestLaw(w, id);
    WalkStaysInside(w.rows, {}, w.requests[id].previous);
    InheritedAmong(w, Ancestors(w, id), w.requests[id].visible, links, x);
  }

  /** How often a tool output reaches a turn, whatever the interleaving: once for
      each way it was handed on, summed over the lineage. Any set of links will do
      that has what the turn saw in it: all stored ancestors, the saved ones, or
      those already saved when the turn inherited. */
  lemma {:induction false} MultiplicityLaw(w: World, id: Id, links: set<Id>, x: ToolOutput)
    requires Inv(w) && id in w.requests && HasInherited(w.requests[id]) && w.requests[id].visible <= links
    ensures var q := Lineage(w, id, links);
      Count(w.requests[id].enriched, x) == Submitted(Sees(w, q), OwnCount(w, q, x), |q|)
  {
    var q := Lineage(w, id, links);
    LineageLawful(w, id, links, x);
    TotalIsSubmitted(Sees(w, q), OwnCount(w, q, x), TotalCount(w, q, x), |q|);
    assert TotalCount(w, q, x)(0) == Count(w.requests[id].enriched, x);
  }

  /** Everyone in the lineage had everyone behind them saved before inheriting. */
  ghost predicate Settled(w: World, q: seq<Id>) {
    forall k: nat, i: nat :: k < i < |q| ==> q[k] in w.requests && q[i] in w.requests[q[k]].visible
  }

  /** What is submitted d links back arrives exactly 2^(d-1) times, for every d,
      exactly when each link of the lineage had been saved before any later one
      inherited; otherwise some arrives fewer times, none more. Ancestors that are
      no links, such as abandoned ones, neither count nor matter. */
  lemma DoublingPerLink(w: World, id: Id, links: set<Id>)
    requires Inv(w) && id in w.requests
    ensures var q := Lineage(w, id, links);
      && (Doubling(Sees(w, q), |q|) <==> Settled(w, q))
      && (forall d: nat :: 1 <= d < |q| ==> Copies(Sees(w, q), d) <= Pow2(d - 1))
  {
    var q := Lineage(w, id, links);
    var sees := Sees(w, q);
    DoublingExactlyWhenAllSee(sees, |q|);
    SettledMeansAllSee(w, id, links);
    forall d: nat | 1 <= d < |q| ensures Copies(sees, d) <= Pow2(d - 1) {
      AtMostDoubled(sees, d);
    }
  }

  lemma SettledMeansAllSee(w: World, id: Id, links: set<Id>)
    requires Tracked(w) && Backward(w) && id in w.requests
    ensures var q := Lineage(w, id, links); AllSee(Sees(w, q), |q|) <==> Settled(w, q)
  {
    var q := Lineage(w, id, links);
    var sees := Sees(w, q);
    forall k: nat | k < |q| ensures q[k] in w.requests { LineageTail(w, id, links, k); }
    forall k: nat, i: nat | k < i < |q| ensures sees(k, i) <==> q[i] in w.requests[q[k]].visible {}
    if AllSee(sees, |q|) {
      forall k: nat, i: nat | k < i < |q| ensures q[i] in w.requests[q[k]].visible {
        assert sees(k, i);
      }
    }
  }

  /** Links are the responses saved by now, or those saved when id read their rows. */
  ghost predicate LinksOf(w: World, id: Id, links: set<Id>)
    requires id in w.requests
  {
    links == SavedIds(w) || links == w.requests[id].visible
  }

  /** The same for whole runs: the statements above hold of whatever is reached,
      counted in saved links, whether saved by now or by the time of reading. */
  lemma {:induction false} EveryRun(steps: seq<Step>, w: World, id: Id, links: set<Id>, x: ToolOutput)
    requires Reaches(steps, w) && id in w.requests && HasInherited(w.requests[id])
    requires LinksOf(w, id, links)
    ensures x in w.requests[id].enriched <==> x in w.requests[id].own || FromVisibleAncestor(w, id, x)
    ensures var q := Lineage(w, id, links);
      && Count(w.requests[id].enriched, x) == Submitted(Sees(w, q), OwnCount(w, q, x), |q|)
      && (Settled(w, q) ==> Count(w.requests[id].enriched, x) == Doublings(OwnCount(w, q, x), |q|))
      && (Doubling(Sees(w, q), |q|) <==> Settled(w, q))
      && (forall d: nat :: 1 <= d < |q| ==> Copies(Sees(w, q), d) <= Pow2(d - 1))
  {
    RunsKeepInv(steps, w);
    assert w.requests[id].visible <= links;
    NoneLostNoneInvented(w, id, x);
    MultiplicityLaw(w, id, links, x);
    DoublingPerLink(w, id, links);
    var q := Lineage(w, id, links);
    if Settled(w, q) {
      SubmittedDoubles(Sees(w, q), OwnCount(w, q, x), |q|);
    }
  }

  /** own(0) + 1 own(1) + 2 own(2) + 4 own(3) + ... */
  function Doublings(own: nat -> nat, n: nat): nat {
    if n == 0 then 0 else Doublings(own, n - 1) + Doubled(n - 1) * own(n - 1)
  }

  lemma {:induction false} SubmittedDoubles(sees: (nat, nat) -> bool, own: nat -> nat, n: nat)
    requires Doubling(sees, n)
    ensures Submitted(sees, own, n) == Doublings(own, n)
  {
    if n > 0 {
      SubmittedDoubles(sees, own, n - 1);
      assert Copies(sees, n - 1) == Doubled(n - 1);
    }
  }

  // ---- A walk that nobody disturbs ----

  /** A request ends its walk with what it inherits, or fails. */
  predicate Ends(r: Request, inherited: Result<seq<ToolOutput>, string>) {
    if inherited.Success? then r.phase.Ready? && r.enriched == inherited.value else r.phase.Failed?
  }

  /** A walk under way that has only seen the table as it is. */
  ghost predicate HalfWay(rows: Table, r: Request, p: Progress) {
    && (forall a :: a in p.path ==> a in rows)
    && p.items == Flatten(ItemsAlong(rows, p.path))
    && WalkFrom(rows, {}, r.previous)
       == Walk(p.path + WalkFrom(rows, p.seen, p.current).path, WalkFrom(rows, p.seen, p.current).end)
  }

  lemma StillHalfWay(rows: Table, r: Request, p: Progress, p': Progress)
    requires HalfWay(rows, r, p) && !AtEnd(p) && p.current.value in rows
    requires var current := p.current.value;
      p' == Progress(rows[current].previousResponseId, p.seen + {current}, p.path + [current],
                     p.items + RowItems(rows[current]))
    ensures HalfWay(rows, r, p') && rows.Keys - p'.seen < rows.Keys - p.seen
  {
    hide RowItems;
    var current := p.current.value;
    var rest := WalkFrom(rows, p'.seen, p'.current);
    assert p.path + ([current] + rest.path) == p'.path + rest.path;
    assert ItemsAlong(rows, p'.path) == ItemsAlong(rows, p.path) + [RowItems(rows[current])];
    FlattenSnoc(ItemsAlong(rows, p.path), RowItems(rows[current]));
    assert current in rows.Keys - p.seen;
  }

  lemma AllTheWay(rows: Table, r: Request, p: Progress)
    requires HalfWay(rows, r, p)
    ensures AtEnd(p) ==> Enriched(rows, r.previous, r.own) == Success(r.own + OutputsIn(Reverse(p.items)))
    ensures !AtEnd(p) && p.current.value !in rows ==> Enriched(rows, r.previous, r.own).Failure?
  {
    hide RowItems, OutputsIn;
    if AtEnd(p) {
      WalkEnds(rows, r, p);
      if r.previous.None? {
        assert p.path == [] && p.items == [];
        assert Reverse(p.items) == [];
        NoOutputs();
        assert r.own + [] == r.own;
      }
    }
  }

  lemma NoOutputs()
    ensures OutputsIn([]) == []
  {
  }

  /** What is left of a walk, read without interruption. */
  lemma {:induction false} ReadOn(before: seq<Step>, w: World, id: Id) returns (steps: seq<Step>, w': World)
    requires Reaches(before, w) && id in w.requests && w.requests[id].phase.Walking?
    requires HalfWay(w.rows, w.requests[id], w.requests[id].phase.at)
    ensures Reaches(steps, w') && w'.rows == w.rows && id in w'.requests
    ensures Ends(w'.requests[id], Enriched(w.rows, w.requests[id].previous, w.requests[id].own))
    decreases w.rows.Keys - w.requests[id].phase.at.seen
  {
    hide Leads, RowItems, SavedIds, Enriched, HalfWay, WalkFrom, Reaches, OutputsIn, Reverse;
    var r := w.requests[id];
    var p := r.phase.at;
    AllTheWay(w.rows, r, p);
    if AtEnd(p) {
      w' := Apply(w, FinishWalk(id));
      OneMore(before, w, FinishWalk(id));
      steps := before + [FinishWalk(id)];
    } else {
      w' := Apply(w, ReadRow(id));
      OneMore(before, w, ReadRow(id));
      steps := before + [ReadRow(id)];
      if p.current.value in w.rows {
        StillHalfWay(w.rows, r, p, w'.requests[id].phase.at);
        SameRequest(w.rows, r, w'.requests[id], w'.requests[id].phase.at);
        steps, w' := ReadOn(steps, w', id);
      }
    }
  }

  lemma SameRequest(rows: Table, r: Request, r': Request, p: Progress)
    requires HalfWay(rows, r, p) && r'.previous == r.previous
    ensures HalfWay(rows, r', p)
  {
  }

  /** Undisturbed, the walk by steps gives exactly what the walk in one go gives. */
  lemma UndisturbedWalk(before: seq<Step>, w: World, id: Id) returns (steps: seq<Step>, w': World)
    requires Reaches(before, w) && id in w.requests && w.requests[id].phase.Waiting?
    ensures Reaches(steps, w') && w'.rows == w.rows && id in w'.requests
    ensures Ends(w'.requests[id], Enriched(w.rows, w.requests[id].previous, w.requests[id].own))
  {
    hide Leads, Ends, Enriched, WalkFrom;
    w' := Apply(w, BeginWalk(id));
    OneMore(before, w, BeginWalk(id));
    var walk := WalkFrom(w.rows, {}, w.requests[id].previous);
    assert [] + walk.path == walk.path;
    assert ItemsAlong(w.rows, []) == [];
    assert HalfWay(w.rows, w'.requests[id], w'.requests[id].phase.at);
    steps, w' := ReadOn(before + [BeginWalk(id)], w', id);
  }

  // ---- Saved too late ----

  lemma {:induction false} OneMore(steps: seq<Step>, before: World, step: Step)
    requires Reaches(steps, before) && Enabled(before, step)
    ensures Reaches(steps + [step], Apply(before, step))
  {
    assert (steps + [step])[..|steps|] == steps;
    assert Leads(before, step, Apply(before, step));
  }

  function Sent(id: Id, previous: Option<Id>, own: seq<ToolOutput>): Step {
    Submit(id, previous, own, true, None, "m", "server", 0)
  }

  /** Two overlapping requests. The second continues the first but reads its row
      before the first is saved: it succeeds without the first one's tool output,
      although the first ends up a saved ancestor. */
  lemma SavedTooLate(x: ToolOutput) returns (steps: seq<Step>, w: World)
    ensures Reaches(steps, w) && {"a", "b"} <= w.requests.Keys
    ensures w.requests["a"].phase.Saved? && w.requests["a"].own == [x]
    ensures HasInherited(w.requests["b"]) && Ancestors(w, "b") == ["a"]
    ensures Count(w.requests["b"].enriched, x) == 0 && !Settled(w, Lineage(w, "b", SavedIds(w)))
  {
    hide Leads, ChainItems, Settled, Lineage, Ancestors;
    steps, w := TwoSubmitted(x);
    steps, w := WalkedOver(steps, w);
    var w1 := Apply(w, BeginWalk("a"));
    OneMore(steps, w, BeginWalk("a"));
    steps := steps + [BeginWalk("a")];
    var w2 := Apply(w1, FinishWalk("a"));
    OneMore(steps, w1, FinishWalk("a"));
    steps := steps + [FinishWalk("a")];
    var save := Persist("a", "completed", Parsed([]), [], 0);
    w := Apply(w2, save);
    OneMore(steps, w2, save);
    steps := steps + [save];
    OneSavedAncestor(w);
  }

  lemma TwoSubmitted(x: ToolOutput) returns (steps: seq<Step>, w: World)
    ensures Reaches(steps, w) && w.rows.Keys == {"a", "b"} && w.requests.Keys == {"a", "b"}
    ensures w.rows["a"].previousResponseId.None? && RowItems(w.rows["a"]) == []
    ensures w.requests["a"] == Request(None, [x], true, Waiting, [], {}, 0)
    ensures w.requests["b"] == Request(Some("a"), [], true, Waiting, [], {}, 1)
  {
    hide Leads;
    var w1 := Apply(EMPTY_WORLD, Sent("a", None, [x]));
    OneMore([], EMPTY_WORLD, Sent("a", None, [x]));
    w := Apply(w1, Sent("b", Some("a"), []));
    OneMore([] + [Sent("a", None, [x])], w1, Sent("b", Some("a"), []));
    steps := [] + [Sent("a", None, [x])] + [Sent("b", Some("a"), [])];
  }

  /** b reads the row of a, which is not saved yet. */
  lemma WalkedOver(before: seq<Step>, w: World) returns (steps: seq<Step>, w': World)
    requires Reaches(before, w) && {"a", "b"} <= w.requests.Keys && {"a", "b"} <= w.rows.Keys
    requires w.rows["a"].previousResponseId.None? && RowItems(w.rows["a"]) == []
    requires w.requests["a"].phase.Waiting?
    requires w.requests["b"] == Request(Some("a"), [], true, Waiting, [], {}, 1)
    ensures Reaches(steps, w') && w'.rows == w.rows
    ensures w'.requests == w.requests["b" := Request(Some("a"), [], true, Ready, [], {}, 1)]
  {
    hide Leads, RowItems;
    var w1 := Apply(w, BeginWalk("b"));
    OneMore(before, w, BeginWalk("b"));
    var w2 := Apply(w1, ReadRow("b"));
    OneMore(before + [BeginWalk("b")], w1, ReadRow("b"));
    w' := Apply(w2, FinishWalk("b"));
    OneMore(before + [BeginWalk("b")] + [ReadRow("b")], w2, FinishWalk("b"));
    steps := before + [BeginWalk("b")] + [ReadRow("b")] + [FinishWalk("b")];
    assert w'.requests["b"] == Request(Some("a"), [], true, Ready, [], {}, 1);
  }

  lemma OneSavedAncestor(w: World)
    requires {"a", "b"} <= w.requests.Keys && "a" in w.rows && w.rows["a"].previousResponseId.None?
    requires w.requests["a"].phase.Saved? && w.requests["b"].previous == Some("a") && w.requests["b"].visible == {}
    ensures Ancestors(w, "b") == ["a"] && !Settled(w, Lineage(w, "b", SavedIds(w)))
  {
    assert WalkFrom(w.rows, {} + {"a"}, None).path == [];
    assert Among(["a"], SavedIds(w)) == ["a"] + Among([], SavedIds(w));
    var q := Lineage(w, "b", SavedIds(w));
    assert q == ["b", "a"];
    assert q[1] !in w.requests[q[0]].visible;
  }
}
