/**
 The merge pass: candidate pairs are read off one snapshot of the active
 contexts, then replayed in order against the tables. A replayed merge may fail.
 */
module MergePass {
  import opened Basics
  import opened LinkRows
  import opened Vectors
  import Jaccard

  /** What the pass reads of one listed context. */
  datatype Snap = Snap(id: Id, title: string, eventCount: int)

  datatype Pair = Pair(keep: Id, remove: Id)

  /** Everything the gate consults, read before the first merge. */
  datatype GateView = GateView(
    centroids: map<Id, Vec>,
    resources: map<Id, set<Id>>,
    mergeThreshold: real,
    overlapMin: real,
    sqrt: real -> real)

  ghost predicate DistinctIds(s: seq<Snap>) {
    forall i, j :: 0 <= i < j < |s| ==> s[i].id != s[j].id
  }

  function ResourcesOf(v: GateView, id: Id): set<Id> {
    if id in v.resources then v.resources[id] else {}
  }

  /** Equal titles always pass; otherwise both the centroids and the resources must be close. */
  predicate Gate(v: GateView, a: Snap, b: Snap) {
    && a.id in v.centroids && b.id in v.centroids
    && (a.title == b.title
        || (Cosine(v.centroids[a.id], v.centroids[b.id], v.sqrt) >= v.mergeThreshold
            && Jaccard.Similarity(ResourcesOf(v, a.id), ResourcesOf(v, b.id)) >= v.overlapMin))
  }

  /** The busier context is kept; on a tie the one listed first. */
  function Orient(a: Snap, b: Snap): Pair {
    if a.eventCount >= b.eventCount then Pair(a.id, b.id) else Pair(b.id, a.id)
  }

  /** The candidates from row i, column j onward, in the order of the nested loops. */
  function CandidatesFrom(v: GateView, s: seq<Snap>, i: nat, j: nat): seq<Pair>
    decreases |s| - i, |s| - j
  {
    if i >= |s| then []
    else if j >= |s| then CandidatesFrom(v, s, i + 1, i + 2)
    else (if Gate(v, s[i], s[j]) then [Orient(s[i], s[j])] else []) + CandidatesFrom(v, s, i, j + 1)
  }

  function Candidates(v: GateView, s: seq<Snap>): seq<Pair> { CandidatesFrom(v, s, 0, 1) }

  /** The checks of one pair, in the order the loop makes them. */
  method PassesGate(v: GateView, ctxA: Snap, ctxB: Snap) returns (pass: bool)
    ensures pass <==> Gate(v, ctxA, ctxB)
  {
    if ctxA.id !in v.centroids || ctxB.id !in v.centroids {
      return false;
    }
    var sim := Cosine(v.centroids[ctxA.id], v.centroids[ctxB.id], v.sqrt);
    var titleMatch := ctxA.title == ctxB.title;
    if !titleMatch && sim < v.mergeThreshold {
      return false;
    }
    if !titleMatch {
      var overlap := Jaccard.Similarity(ResourcesOf(v, ctxA.id), ResourcesOf(v, ctxB.id));
      if overlap < v.overlapMin {
        return false;
      }
    }
    return true;
  }

  /** Phase 1, as the code runs it. */
  method CollectCandidates(v: GateView, active: seq<Snap>) returns (found: seq<Pair>)
    ensures found == Candidates(v, active)
  {
    found := [];
    for i := 0 to |active|
      invariant found + CandidatesFrom(v, active, i, i + 1) == Candidates(v, active)
    {
      for j := i + 1 to |active|
        invariant found + CandidatesFrom(v, active, i, j) == Candidates(v, active)
      {
        var pass := PassesGate(v, active[i], active[j]);
        if pass {
          Shift(found, Orient(active[i], active[j]), CandidatesFrom(v, active, i, j + 1));
          found := found + [Orient(active[i], active[j])];
        }
      }
    }
  }

  lemma Shift(found: seq<Pair>, p: Pair, rest: seq<Pair>)
    ensures found + ([p] + rest) == (found + [p]) + rest
  {
  }

  /** The pair of rows a < b that comes at (i, j) or later. */
  ghost predicate GatedAt(v: GateView, s: seq<Snap>, i: nat, j: nat, p: Pair, a: int, b: int) {
    0 <= a < b < |s| && (i < a || (i == a && j <= b)) && Gate(v, s[a], s[b]) && p == Orient(s[a], s[b])
  }

  /** The candidate list holds exactly the oriented pairs that pass the gate. */
  lemma CandidatesAreGatedPairs(v: GateView, s: seq<Snap>, p: Pair)
    ensures p in Candidates(v, s)
       <==> exists i, j :: 0 <= i < j < |s| && Gate(v, s[i], s[j]) && p == Orient(s[i], s[j])
  {
    CandidatesFromPairs(v, s, 0, 1, p);
    if i, j :| 0 <= i < j < |s| && Gate(v, s[i], s[j]) && p == Orient(s[i], s[j]) {
      assert GatedAt(v, s, 0, 1, p, i, j);
    }
  }

  lemma {:induction false} CandidatesFromPairs(v: GateView, s: seq<Snap>, i: nat, j: nat, p: Pair)
    requires i < j
    ensures p in CandidatesFrom(v, s, i, j) <==> exists a, b :: GatedAt(v, s, i, j, p, a, b)
    decreases |s| - i, |s| - j
  {
    if i < |s| {
      if j >= |s| {
        CandidatesFromPairs(v, s, i + 1, i + 2, p);
        LaterPairs(v, s, i, j, i + 1, i + 2, p);
      } else {
        CandidatesFromPairs(v, s, i, j + 1, p);
        LaterPairs(v, s, i, j, i, j + 1, p);
        if Gate(v, s[i], s[j]) && p == Orient(s[i], s[j]) { assert GatedAt(v, s, i, j, p, i, j); }
      }
    }
  }

  /** Between a position and the next one there is nothing but the pair at the first. */
  lemma LaterPairs(v: GateView, s: seq<Snap>, i: nat, j: nat, k: nat, l: nat, p: Pair)
    requires i < |s| && i < j && (if j >= |s| then (k, l) == (i + 1, i + 2) else (k, l) == (i, j + 1))
    ensures (exists a, b :: GatedAt(v, s, i, j, p, a, b))
       <==> (j < |s| && GatedAt(v, s, i, j, p, i, j)) || exists a, b :: GatedAt(v, s, k, l, p, a, b)
  {
    if a, b :| GatedAt(v, s, i, j, p, a, b) {
      if !(a == i && b == j) { assert GatedAt(v, s, k, l, p, a, b); }
    }
    if a, b :| GatedAt(v, s, k, l, p, a, b) { assert GatedAt(v, s, i, j, p, a, b); }
  }

  /** Every candidate is a pair of two contexts. */
  lemma CandidatesAreProper(v: GateView, s: seq<Snap>)
    requires DistinctIds(s)
    ensures forall n :: 0 <= n < |Candidates(v, s)| ==> Candidates(v, s)[n].keep != Candidates(v, s)[n].remove
  {
    forall n | 0 <= n < |Candidates(v, s)| ensures Candidates(v, s)[n].keep != Candidates(v, s)[n].remove {
      assert Candidates(v, s)[n] in Candidates(v, s);
      CandidatesAreGatedPairs(v, s, Candidates(v, s)[n]);
    }
  }

  // ---- Phase 2 ----

  ghost predicate AllCommitted(commits: seq<bool>) { forall n :: 0 <= n < |commits| ==> commits[n] }

  function Removed(merged: seq<Pair>): set<Id> {
    set p | p in merged :: p.remove
  }

  /**
   The candidates that turn into merges. commits[n] says whether the transaction
   of candidate n would commit if it were tried.
   */
  function Replay(cands: seq<Pair>, commits: seq<bool>): seq<Pair>
    requires |cands| == |commits|
  {
    if cands == [] then []
    else
      var n := |cands| - 1;
      var merged := Replay(cands[..n], commits[..n]);
      var gone := Removed(merged);
      if cands[n].keep in gone || cands[n].remove in gone || !commits[n] then merged else merged + [cands[n]]
  }

  /**
   The same loop with its storage calls: a candidate is tried unless one of its
   sides is gone, the transaction of each one tried is the next call, and a
   failed one is left out. The result is the merges and the number of the call after them.
   */
  function Ran(cands: seq<Pair>, fails: Faults, at: nat): (seq<Pair>, nat) {
    if cands == [] then ([], at)
    else
      var n := |cands| - 1;
      var (merged, next) := Ran(cands[..n], fails, at);
      var gone := Removed(merged);
      if cands[n].keep in gone || cands[n].remove in gone then (merged, next)
      else (if fails(next) then merged else merged + [cands[n]], next + 1)
  }

  lemma RanNothing(cands: seq<Pair>, fails: Faults, at: nat)
    ensures Ran(cands[..0], fails, at) == ([], at)
  {
  }

  lemma RanOneMore(cands: seq<Pair>, fails: Faults, at: nat, n: nat)
    requires n < |cands|
    ensures var (merged, next) := Ran(cands[..n], fails, at);
            Ran(cands[..n + 1], fails, at) ==
              if cands[n].keep in Removed(merged) || cands[n].remove in Removed(merged) then (merged, next)
              else if fails(next) then (merged, next + 1)
              else (merged + [cands[n]], next + 1)
  {
    assert cands[..n + 1][..n] == cands[..n];
  }

  /** Every candidate with both sides left was tried, so without a failed call the merges are those of a full pass. */
  lemma {:induction false} SmoothRunMergesAll(cands: seq<Pair>, fails: Faults, at: nat, commits: seq<bool>)
    requires |commits| == |cands| && AllCommitted(commits)
    requires at <= Ran(cands, fails, at).1 && Smooth(fails, at, Ran(cands, fails, at).1)
    ensures Ran(cands, fails, at).0 == Replay(cands, commits)
  {
    if cands == [] {
    } else {
      var n := |cands| - 1;
      var (merged, next) := Ran(cands[..n], fails, at);
      RanGrows(cands[..n], fails, at);
      SmoothJoin(fails, at, next, Ran(cands, fails, at).1);
      SmoothRunMergesAll(cands[..n], fails, at, commits[..n]);
      assert commits[n];
    }
  }

  lemma {:induction false} RanGrows(cands: seq<Pair>, fails: Faults, at: nat)
    ensures at <= Ran(cands, fails, at).1
  {
    if cands == [] {
    } else {
      RanGrows(cands[..|cands| - 1], fails, at);
    }
  }

  /** A context that was removed never takes part again, and no context absorbs itself. */
  ghost predicate Replayable(merged: seq<Pair>) {
    && (forall i :: 0 <= i < |merged| ==> merged[i].keep != merged[i].remove)
    && (forall i, j :: 0 <= i < j < |merged| ==>
          merged[j].keep != merged[i].remove && merged[j].remove != merged[i].remove)
  }

  lemma {:induction false} ReplayIsReplayable(cands: seq<Pair>, commits: seq<bool>)
    requires |cands| == |commits|
    requires forall n :: 0 <= n < |cands| ==> cands[n].keep != cands[n].remove
    ensures Replayable(Replay(cands, commits))
    ensures forall p :: p in Replay(cands, commits) ==> p in cands
  {
    if cands == [] {
    } else {
      var n := |cands| - 1;
      ReplayIsReplayable(cands[..n], commits[..n]);
      var front := Replay(cands[..n], commits[..n]);
      if Replay(cands, commits) != front {
        OneMoreReplayable(front, cands[n]);
        assert Replay(cands, commits) == front + [cands[n]];
      }
      assert forall p :: p in front ==> p in cands[..n];
    }
  }

  lemma OneMoreReplayable(merged: seq<Pair>, p: Pair)
    requires Replayable(merged) && p.keep != p.remove && p.keep !in Removed(merged) && p.remove !in Removed(merged)
    ensures Replayable(merged + [p])
  {
    forall i | 0 <= i < |merged| ensures merged[i].remove in Removed(merged) {
      assert merged[i] in merged;
    }
  }

  /** Of every candidate whose transaction would commit, one side is gone at the end. */
  lemma {:induction false} CommittedCandidatesAreSettled(cands: seq<Pair>, commits: seq<bool>, n: nat)
    requires |cands| == |commits| && n < |cands| && commits[n]
    ensures var gone := Removed(Replay(cands, commits)); cands[n].keep in gone || cands[n].remove in gone
  {
    var m := |cands| - 1;
    var before := Replay(cands[..m], commits[..m]);
    assert Removed(before) <= Removed(Replay(cands, commits)) by {
      forall p | p in before ensures p in Replay(cands, commits) {}
    }
    if n < m {
      CommittedCandidatesAreSettled(cands[..m], commits[..m], n);
    } else if cands[m].keep !in Removed(before) && cands[m].remove !in Removed(before) {
      assert cands[m] in Replay(cands, commits);
    }
  }

  /** The context that holds c's links after the merges. */
  ghost function Root(merged: seq<Pair>, c: Id): Id
    decreases |merged|
  {
    if merged == [] then c
    else Root(merged[1..], if c == merged[0].remove then merged[0].keep else c)
  }

  lemma {:induction false} ReplayableTail(merged: seq<Pair>)
    requires Replayable(merged) && merged != []
    ensures Replayable(merged[1..])
    ensures Removed(merged) == {merged[0].remove} + Removed(merged[1..])
    ensures merged[0].remove !in Removed(merged[1..])
  {
    var tail := merged[1..];
    assert forall i :: 0 <= i < |tail| ==> tail[i] == merged[i + 1];
    forall p ensures p in merged <==> p == merged[0] || p in tail {
      assert merged == [merged[0]] + tail;
    }
  }

  /** Survivors are their own roots, and every root is a survivor. */
  lemma {:induction false} RootsSurvive(merged: seq<Pair>, c: Id)
    requires Replayable(merged)
    ensures c !in Removed(merged) ==> Root(merged, c) == c
    ensures Root(merged, c) !in Removed(merged)
    decreases |merged|
  {
    if merged == [] {
    } else {
      var first := merged[0];
      ReplayableTail(merged);
      var next := if c == first.remove then first.keep else c;
      RootsSurvive(merged[1..], next);
      RootAvoids(merged[1..], next, first.remove);
    }
  }

  /** Nothing ends in a context that no pair keeps. */
  lemma {:induction false} RootAvoids(merged: seq<Pair>, c: Id, x: Id)
    requires c != x && forall p :: p in merged ==> p.keep != x
    ensures Root(merged, c) != x
    decreases |merged|
  {
    if merged == [] {
    } else {
      assert merged[0] in merged;
      RootAvoids(merged[1..], if c == merged[0].remove then merged[0].keep else c, x);
    }
  }

  /** Following `keep` from a removed context leads to the same root. */
  lemma {:induction false} RootFollowsKeep(merged: seq<Pair>, i: nat)
    requires Replayable(merged) && i < |merged|
    ensures Root(merged, merged[i].remove) == Root(merged, merged[i].keep)
    decreases |merged|
  {
    ReplayableTail(merged);
    if i == 0 {
    } else {
      assert merged[i] == merged[1..][i - 1];
      RootFollowsKeep(merged[1..], i - 1);
    }
  }

  /** Root is the only assignment that fixes survivors and is constant along `keep`. */
  lemma {:induction false} RootIsUnique(merged: seq<Pair>, f: Id -> Id, c: Id)
    requires Replayable(merged)
    requires forall i :: 0 <= i < |merged| ==> f(merged[i].remove) == f(merged[i].keep)
    requires f(Root(merged, c)) == Root(merged, c)
    ensures f(c) == Root(merged, c)
    decreases |merged|
  {
    if merged == [] {
    } else {
      ReplayableTail(merged);
      assert forall i :: 0 <= i < |merged[1..]| ==> merged[1..][i] == merged[i + 1];
      RootIsUnique(merged[1..], f, if c == merged[0].remove then merged[0].keep else c);
    }
  }

  // ---- What the merges do to a link table ----

  function MergeAll<P(==)>(t: set<Row<P>>, merged: seq<Pair>): set<Row<P>>
    decreases |merged|
  {
    if merged == [] then t
    else
      var n := |merged| - 1;
      Merged(MergeAll(t, merged[..n]), merged[n].keep, merged[n].remove)
  }

  /**
   Conservation. After any replayable list of merges, a context owns an item
   exactly when some context with that root owned it before. Rows are never
   invented, a survivor keeps its own rows, and other contexts are untouched.
   */
  lemma {:induction false} Conservation<P>(t: set<Row<P>>, merged: seq<Pair>)
    requires KeyUnique(t) && Replayable(merged)
    ensures KeyUnique(MergeAll(t, merged))
    ensures forall s, x :: x in Items(MergeAll(t, merged), s) <==> exists c :: Root(merged, c) == s && x in Items(t, c)
    ensures forall r :: r in MergeAll(t, merged) ==> exists c :: Root(merged, c) == r.owner && r.(owner := c) in t
    ensures forall r :: r in t && r.owner !in Removed(merged) ==> r in MergeAll(t, merged)
    decreases |merged|
  {
    if merged == [] {
    } else {
      var n := |merged| - 1;
      var front, last := merged[..n], merged[n];
      ReplayableFront(merged);
      Conservation(t, front);
      var before, after := MergeAll(t, front), MergeAll(t, merged);
      MergedMeaning(before, last.keep, last.remove);
      forall s, x ensures x in Items(after, s) <==> exists c :: Root(merged, c) == s && x in Items(t, c) {
        ConservedItem(t, merged, front, s, x);
      }
      forall r | r in after ensures exists c :: Root(merged, c) == r.owner && r.(owner := c) in t {
        var q := if r in before then r else r.(owner := last.remove);
        assert q in before;
        var c :| Root(front, c) == q.owner && q.(owner := c) in t;
        RootSnoc(merged, c);
        assert q.(owner := c) == r.(owner := c);
      }
    }
  }

  lemma ReplayableFront(merged: seq<Pair>)
    requires Replayable(merged) && merged != []
    ensures Replayable(merged[..|merged| - 1])
    ensures Removed(merged) == Removed(merged[..|merged| - 1]) + {merged[|merged| - 1].remove}
    ensures merged[|merged| - 1].keep !in Removed(merged[..|merged| - 1])
    ensures merged[|merged| - 1].remove !in Removed(merged[..|merged| - 1])
  {
    var n := |merged| - 1;
    assert merged == merged[..n] + [merged[n]];
  }

  lemma {:induction false} RootSnoc(merged: seq<Pair>, c: Id)
    requires merged != []
    ensures var n := |merged| - 1;
            Root(merged, c) == if Root(merged[..n], c) == merged[n].remove then merged[n].keep else Root(merged[..n], c)
    decreases |merged|
  {
    var n := |merged| - 1;
    if n > 0 {
      assert merged[..n][1..] == merged[1..][..n - 1];
      RootSnoc(merged[1..], if c == merged[0].remove then merged[0].keep else c);
    } else {
      assert merged[1..] == [];
    }
  }

  lemma ConservedItem<P>(t: set<Row<P>>, merged: seq<Pair>, front: seq<Pair>, s: Id, x: Id)
    requires KeyUnique(t) && Replayable(merged) && merged != [] && front == merged[..|merged| - 1]
    requires KeyUnique(MergeAll(t, front))
    requires forall s, x :: x in Items(MergeAll(t, front), s) <==> exists c :: Root(front, c) == s && x in Items(t, c)
    ensures x in Items(MergeAll(t, merged), s) <==> exists c :: Root(merged, c) == s && x in Items(t, c)
  {
    var last := merged[|merged| - 1];
    var before, after := MergeAll(t, front), MergeAll(t, merged);
    ReplayableFront(merged);
    MergedMeaning(before, last.keep, last.remove);
    MergedItems(before, last.keep, last.remove, s, x);
    if x in Items(after, s) {
      var o := if x in Items(before, s) then s else last.remove;
      assert x in Items(before, o);
      var c :| Root(front, c) == o && x in Items(t, c);
      RootSnoc(merged, c);
      assert Root(merged, c) == s;
    }
    if c :| Root(merged, c) == s && x in Items(t, c) {
      RootSnoc(merged, c);
      assert x in Items(before, Root(front, c));
    }
  }

  lemma MergedItems<P>(t: set<Row<P>>, keep: Id, remove: Id, s: Id, x: Id)
    requires KeyUnique(t) && keep != remove
    ensures x in Items(Merged(t, keep, remove), s)
       <==> s != remove && (x in Items(t, s) || (s == keep && x in Items(t, remove)))
  {
    MergedMeaning(t, keep, remove);
    if s != keep && s != remove {
      assert RowsOf(Merged(t, keep, remove), s) == RowsOf(t, s);
      if x in Items(t, s) {
        var r :| r in t && r.owner == s && r.item == x;
        assert r in RowsOf(t, s);
      }
      if x in Items(Merged(t, keep, remove), s) {
        var r :| r in Merged(t, keep, remove) && r.owner == s && r.item == x;
        assert r in RowsOf(t, s);
      }
    }
  }

  /** Contexts that no merge names keep exactly their rows. */
  lemma {:induction false} Untouched<P>(t: set<Row<P>>, merged: seq<Pair>, o: Id)
    requires KeyUnique(t) && Replayable(merged)
    requires forall p :: p in merged ==> p.keep != o && p.remove != o
    ensures RowsOf(MergeAll(t, merged), o) == RowsOf(t, o)
    decreases |merged|
  {
    if merged == [] {
    } else {
      var n := |merged| - 1;
      assert merged[n] in merged;
      ReplayableFront(merged);
      Untouched(t, merged[..n], o);
      Conservation(t, merged[..n]);
      MergedMeaning(MergeAll(t, merged[..n]), merged[n].keep, merged[n].remove);
    }
  }
}
