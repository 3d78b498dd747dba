/** When a merge pass joins only contexts that pass the gate: exactly when the gate is transitive on them. */
module GateClosure {
  import opened Basics
  import opened Vectors
  import opened MergePass
  import Jaccard

  /** The gate on contexts known by id and title; counts and list order play no part in it. */
  predicate Gated(v: GateView, titles: map<Id, string>, a: Id, b: Id)
    requires a in titles && b in titles
  {
    Gate(v, Snap(a, titles[a], 0), Snap(b, titles[b], 0))
  }

  /** A snapshot of exactly these contexts, with any counts and in any order. */
  ghost predicate ListsAll(titles: map<Id, string>, s: seq<Snap>) {
    && DistinctIds(s)
    && (forall k :: 0 <= k < |s| ==> s[k].id in titles && s[k].title == titles[s[k].id])
    && (forall c :: c in titles ==> exists k :: 0 <= k < |s| && s[k].id == c)
  }

  ghost predicate Transitive(v: GateView, titles: map<Id, string>) {
    forall a, b, c ::
      (a in titles && b in titles && c in titles && a != b && b != c && a != c
       && Gated(v, titles, a, b) && Gated(v, titles, b, c))
      ==> Gated(v, titles, a, c)
  }

  /** Contexts that end under one root passed the gate pairwise. */
  ghost predicate JoinsOnlyGated(v: GateView, s: seq<Snap>, merged: seq<Pair>) {
    forall i, j :: 0 <= i < |s| && 0 <= j < |s| && i != j && Root(merged, s[i].id) == Root(merged, s[j].id) ==>
        Gate(v, s[i], s[j])
  }

  /** Whatever the counts, the order and the failures are. */
  ghost predicate NeverJoinsUngated(v: GateView, titles: map<Id, string>) {
    forall s, commits :: ListsAll(titles, s) && |commits| == |Candidates(v, s)| ==>
      JoinsOnlyGated(v, s, Replay(Candidates(v, s), commits))
  }

  /** The same for the passes in which every merge commits. */
  ghost predicate NeverJoinsUngatedUndisturbed(v: GateView, titles: map<Id, string>) {
    forall s, commits :: ListsAll(titles, s) && |commits| == |Candidates(v, s)| && AllCommitted(commits) ==>
      JoinsOnlyGated(v, s, Replay(Candidates(v, s), commits))
  }

  lemma GateIsSymmetric(v: GateView, a: Snap, b: Snap)
    ensures Gate(v, a, b) == Gate(v, b, a)
  {
    Jaccard.Bounds(ResourcesOf(v, a.id), ResourcesOf(v, b.id));
    if a.id in v.centroids && b.id in v.centroids {
      CosineIsSymmetric(v.centroids[a.id], v.centroids[b.id], v.sqrt);
    }
  }

  lemma CosineIsSymmetric(a: Vec, b: Vec, sqrt: real -> real)
    ensures Cosine(a, b, sqrt) == Cosine(b, a, sqrt)
  {
    if |a| == |b| { DotCommutes(a, b, |a|); }
    var x, y := sqrt(NormSquared(a)), sqrt(NormSquared(b));
    assert x * y == y * x;
  }

  /** The ids of every merged pair passed the gate. */
  ghost predicate PairsGated(v: GateView, titles: map<Id, string>, merged: seq<Pair>) {
    forall p :: p in merged ==> p.keep in titles && p.remove in titles && Gated(v, titles, p.keep, p.remove)
  }

  lemma CandidateIsGated(v: GateView, titles: map<Id, string>, s: seq<Snap>, p: Pair)
    requires ListsAll(titles, s) && p in Candidates(v, s)
    ensures p.keep != p.remove && p.keep in titles && p.remove in titles && Gated(v, titles, p.keep, p.remove)
  {
    CandidatesAreGatedPairs(v, s, p);
    var i, j :| 0 <= i < j < |s| && Gate(v, s[i], s[j]) && p == Orient(s[i], s[j]);
    GateIsSymmetric(v, s[i], s[j]);
  }

  lemma MergedPairsAreGated(v: GateView, titles: map<Id, string>, s: seq<Snap>, commits: seq<bool>)
    requires ListsAll(titles, s) && |commits| == |Candidates(v, s)|
    ensures var merged := Replay(Candidates(v, s), commits); Replayable(merged) && PairsGated(v, titles, merged)
  {
    CandidatesAreProper(v, s);
    ReplayIsReplayable(Candidates(v, s), commits);
    forall p | p in Replay(Candidates(v, s), commits)
      ensures p.keep in titles && p.remove in titles && Gated(v, titles, p.keep, p.remove)
    {
      CandidateIsGated(v, titles, s, p);
    }
  }

  /** Along the merges every context passes the gate with its root. */
  lemma {:induction false} RootIsGated(v: GateView, titles: map<Id, string>, merged: seq<Pair>, c: Id)
    requires Transitive(v, titles) && Replayable(merged) && PairsGated(v, titles, merged) && c in titles
    ensures Root(merged, c) in titles && (Root(merged, c) == c || Gated(v, titles, c, Root(merged, c)))
    decreases |merged|
  {
    if merged == [] {
    } else {
      var first := merged[0];
      assert first in merged;
      ReplayableTail(merged);
      if c == first.remove {
        RootIsGated(v, titles, merged[1..], first.keep);
        RootsSurvive(merged, c);
        GateIsSymmetric(v, Snap(first.keep, titles[first.keep], 0), Snap(c, titles[c], 0));
      } else {
        RootIsGated(v, titles, merged[1..], c);
      }
    }
  }

  lemma SameRootIsGated(v: GateView, titles: map<Id, string>, merged: seq<Pair>, a: Id, b: Id)
    requires Transitive(v, titles) && Replayable(merged) && PairsGated(v, titles, merged)
    requires a in titles && b in titles && a != b && Root(merged, a) == Root(merged, b)
    ensures Gated(v, titles, a, b)
  {
    var r := Root(merged, a);
    RootIsGated(v, titles, merged, a);
    RootIsGated(v, titles, merged, b);
    GateIsSymmetric(v, Snap(b, titles[b], 0), Snap(r, titles[r], 0));
  }

  lemma TransitiveGateSuffices(v: GateView, titles: map<Id, string>, s: seq<Snap>, commits: seq<bool>)
    requires Transitive(v, titles) && ListsAll(titles, s) && |commits| == |Candidates(v, s)|
    ensures JoinsOnlyGated(v, s, Replay(Candidates(v, s), commits))
  {
    var merged := Replay(Candidates(v, s), commits);
    MergedPairsAreGated(v, titles, s, commits);
    forall i, j | 0 <= i < |s| && 0 <= j < |s| && i != j && Root(merged, s[i].id) == Root(merged, s[j].id)
      ensures Gate(v, s[i], s[j])
    {
      var a, b := s[i].id, s[j].id;
      assert a != b && a in titles && b in titles;
      SameRootIsGated(v, titles, merged, a, b);
    }
  }

  /** The contexts in any order, all with the same count. */
  lemma {:induction false} ListedAnyhow(titles: map<Id, string>, ids: set<Id>) returns (s: seq<Snap>)
    requires ids <= titles.Keys
    ensures DistinctIds(s)
    ensures forall k :: 0 <= k < |s| ==> s[k].id in ids && s[k] == Snap(s[k].id, titles[s[k].id], 0)
    ensures forall c :: c in ids ==> exists k :: 0 <= k < |s| && s[k].id == c
    decreases ids
  {
    if ids == {} {
      s := [];
    } else {
      var c :| c in ids;
      var t := ListedAnyhow(titles, ids - {c});
      s := [Snap(c, titles[c], 0)] + t;
      forall d | d in ids ensures exists k :: 0 <= k < |s| && s[k].id == d {
        if d == c {
          assert s[0].id == d;
        } else {
          assert d in ids - {c};
          var k :| 0 <= k < |t| && t[k].id == d;
          assert s[k + 1].id == d;
        }
      }
    }
  }

  /** A snapshot with context `b` at its head, and equal counts throughout. */
  lemma ListedFirst(titles: map<Id, string>, b: Id) returns (s: seq<Snap>)
    requires b in titles
    ensures ListsAll(titles, s) && s != [] && s[0].id == b
    ensures forall k :: 0 <= k < |s| ==> s[k].eventCount == 0
  {
    var t := ListedAnyhow(titles, titles.Keys - {b});
    s := [Snap(b, titles[b], 0)] + t;
    forall c | c in titles ensures exists k :: 0 <= k < |s| && s[k].id == c {
      if c == b {
        assert s[0].id == c;
      } else {
        assert c in titles.Keys - {b};
        var k :| 0 <= k < |t| && t[k].id == c;
        assert s[k + 1].id == c;
      }
    }
  }

  /** The candidates of the first listed context from column j onward, when it is kept in all of them. */
  function FirstRow(v: GateView, s: seq<Snap>, j: nat): (row: seq<Pair>)
    requires s != []
    ensures forall p :: p in row ==> p.keep == s[0].id
    decreases |s| - j
  {
    if j >= |s| then []
    else (if Gate(v, s[0], s[j]) then [Pair(s[0].id, s[j].id)] else []) + FirstRow(v, s, j + 1)
  }

  lemma {:induction false} FirstRowComesFirst(v: GateView, s: seq<Snap>, j: nat)
    requires s != [] && j > 0 && forall k :: 0 <= k < |s| ==> s[k].eventCount == 0
    ensures CandidatesFrom(v, s, 0, j) == FirstRow(v, s, j) + CandidatesFrom(v, s, 1, 2)
    decreases |s| - j
  {
    if j >= |s| {
    } else {
      FirstRowComesFirst(v, s, j + 1);
    }
  }

  /** Each pair of the row names another listed context, and each gated neighbour is named. */
  lemma {:induction false} FirstRowNames(v: GateView, s: seq<Snap>, j: nat)
    requires s != [] && j > 0 && DistinctIds(s)
    ensures forall p :: p in FirstRow(v, s, j) ==> exists k :: j <= k < |s| && s[k].id == p.remove
    ensures forall k :: j <= k < |s| && Gate(v, s[0], s[k]) ==> Pair(s[0].id, s[k].id) in FirstRow(v, s, j)
    ensures Star(FirstRow(v, s, j), s[0].id)
    decreases |s| - j
  {
    if j >= |s| {
    } else {
      FirstRowNames(v, s, j + 1);
      if Gate(v, s[0], s[j]) { StarCons(Pair(s[0].id, s[j].id), FirstRow(v, s, j + 1), s[0].id); }
    }
  }

  /** One keeper absorbs pairwise different contexts. */
  ghost predicate Star(row: seq<Pair>, b: Id) {
    && (forall n :: 0 <= n < |row| ==> row[n].keep == b && row[n].remove != b)
    && (forall m, n :: 0 <= m < n < |row| ==> row[m].remove != row[n].remove)
  }

  lemma StarCons(p: Pair, row: seq<Pair>, b: Id)
    requires Star(row, b) && p.keep == b && p.remove != b && forall q :: q in row ==> q.remove != p.remove
    ensures Star([p] + row, b)
  {
    assert forall n :: 0 <= n < |row| ==> row[n] in row;
  }

  lemma StarFront(row: seq<Pair>, b: Id)
    requires Star(row, b) && row != []
    ensures var n := |row| - 1;
            Star(row[..n], b) && row[n].keep !in Removed(row[..n]) && row[n].remove !in Removed(row[..n])
  {
    var n := |row| - 1;
    forall p | p in row[..n] ensures p.remove != row[n].keep && p.remove != row[n].remove {
      var k :| 0 <= k < n && row[..n][k] == p;
      assert row[k] == p;
    }
  }

  lemma CommittedFront(commits: seq<bool>)
    requires AllCommitted(commits) && commits != []
    ensures AllCommitted(commits[..|commits| - 1]) && commits[|commits| - 1]
  {
  }

  lemma LastIsMerged(cands: seq<Pair>, commits: seq<bool>)
    requires cands != [] && |commits| == |cands| && commits[|cands| - 1]
    requires var (n, gone) := (|cands| - 1, Removed(Replay(cands[..|cands| - 1], commits[..|cands| - 1])));
             cands[n].keep !in gone && cands[n].remove !in gone
    ensures var n := |cands| - 1; Replay(cands, commits) == Replay(cands[..n], commits[..n]) + [cands[n]]
  {
  }

  /** A star is merged whole when everything commits. */
  lemma {:induction false} StarIsMerged(row: seq<Pair>, commits: seq<bool>, b: Id)
    requires |commits| == |row| && AllCommitted(commits) && Star(row, b)
    ensures Replay(row, commits) == row
  {
    if row == [] {
    } else {
      hide Star, AllCommitted, Removed, Replay;
      var n := |row| - 1;
      StarFront(row, b);
      CommittedFront(commits);
      StarIsMerged(row[..n], commits[..n], b);
      LastIsMerged(row, commits);
    }
  }

  /** What is merged first stays merged. */
  lemma {:induction false} ReplayExtends(cands: seq<Pair>, commits: seq<bool>, n: nat)
    requires |commits| == |cands| && n <= |cands|
    ensures Replay(cands[..n], commits[..n]) <= Replay(cands, commits)
    decreases |cands|
  {
    if n == |cands| {
      assert cands[..n] == cands && commits[..n] == commits;
    } else {
      var m := |cands| - 1;
      ReplayExtends(cands[..m], commits[..m], n);
      assert cands[..m][..n] == cands[..n] && commits[..m][..n] == commits[..n];
    }
  }

  /** The row of the first listed context is merged before anything else. */
  lemma FirstRowIsMerged(v: GateView, s: seq<Snap>, commits: seq<bool>)
    requires s != [] && DistinctIds(s) && forall k :: 0 <= k < |s| ==> s[k].eventCount == 0
    requires |commits| == |Candidates(v, s)| && AllCommitted(commits)
    ensures FirstRow(v, s, 1) <= Replay(Candidates(v, s), commits)
  {
    var row, cands := FirstRow(v, s, 1), Candidates(v, s);
    FirstRowComesFirst(v, s, 1);
    FirstRowNames(v, s, 1);
    assert cands[..|row|] == row;
    StarIsMerged(row, commits[..|row|], s[0].id);
    ReplayExtends(cands, commits, |row|);
  }

  /** The first listed context and each gated neighbour end under one root. */
  lemma FirstJoinsNeighbours(v: GateView, titles: map<Id, string>, s: seq<Snap>, commits: seq<bool>, b: Id, x: Id)
    requires ListsAll(titles, s) && s != [] && s[0].id == b && forall k :: 0 <= k < |s| ==> s[k].eventCount == 0
    requires |commits| == |Candidates(v, s)| && AllCommitted(commits)
    requires b in titles && x in titles && x != b && Gated(v, titles, b, x)
    ensures var merged := Replay(Candidates(v, s), commits); Root(merged, x) == Root(merged, b)
  {
    var merged := Replay(Candidates(v, s), commits);
    MergedPairsAreGated(v, titles, s, commits);
    FirstRowIsMerged(v, s, commits);
    FirstRowNames(v, s, 1);
    var k :| 0 <= k < |s| && s[k].id == x;
    assert Pair(b, x) in FirstRow(v, s, 1);
    var i :| 0 <= i < |FirstRow(v, s, 1)| && FirstRow(v, s, 1)[i] == Pair(b, x);
    assert merged[i] == Pair(b, x);
    RootFollowsKeep(merged, i);
  }

  lemma JoinedOutside(v: GateView, titles: map<Id, string>, s: seq<Snap>, merged: seq<Pair>, a: Id, c: Id)
    requires ListsAll(titles, s) && a in titles && c in titles && a != c && !Gated(v, titles, a, c)
    requires Root(merged, a) == Root(merged, c)
    ensures !JoinsOnlyGated(v, s, merged)
  {
    var i :| 0 <= i < |s| && s[i].id == a;
    var j :| 0 <= j < |s| && s[j].id == c;
    assert !Gate(v, s[i], s[j]);
  }

  /** Where transitivity fails, some snapshot joins the two outer contexts, without any failure. */
  lemma IntransitiveGateJoins(v: GateView, titles: map<Id, string>, a: Id, b: Id, c: Id)
    requires a in titles && b in titles && c in titles && a != b && b != c && a != c
    requires Gated(v, titles, a, b) && Gated(v, titles, b, c) && !Gated(v, titles, a, c)
    ensures !NeverJoinsUngatedUndisturbed(v, titles)
  {
    var s := ListedFirst(titles, b);
    var commits := seq(|Candidates(v, s)|, _ => true);
    GateIsSymmetric(v, Snap(a, titles[a], 0), Snap(b, titles[b], 0));
    FirstJoinsNeighbours(v, titles, s, commits, b, a);
    FirstJoinsNeighbours(v, titles, s, commits, b, c);
    JoinedOutside(v, titles, s, Replay(Candidates(v, s), commits), a, c);
  }

  /**
   For contexts with given titles, centroids and resources: every pass over them,
   whatever the counts, the listing order and the failures, joins only contexts
   that pass the gate pairwise, if and only if the gate is transitive on them.
   The same holds of the passes in which every merge commits, so failures are not to blame.
   */
  lemma JoinsOnlyGatedIff(v: GateView, titles: map<Id, string>)
    ensures NeverJoinsUngated(v, titles) <==> Transitive(v, titles)
    ensures NeverJoinsUngatedUndisturbed(v, titles) <==> Transitive(v, titles)
  {
    if Transitive(v, titles) {
      forall s, commits | ListsAll(titles, s) && |commits| == |Candidates(v, s)|
        ensures JoinsOnlyGated(v, s, Replay(Candidates(v, s), commits))
      {
        TransitiveGateSuffices(v, titles, s, commits);
      }
    } else {
      var a, b, c :| a in titles && b in titles && c in titles && a != b && b != c && a != c
        && Gated(v, titles, a, b) && Gated(v, titles, b, c) && !Gated(v, titles, a, c);
      IntransitiveGateJoins(v, titles, a, b, c);
    }
  }
}
