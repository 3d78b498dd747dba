/** What a merge pass over one snapshot leaves behind: who survives, and under which root. */
module MergeOutcome {
  import opened Basics
  import opened MergePass
  import Jaccard

  /** (event_count descending, list index ascending): the order in which contexts are preferred. */
  predicate Beats(s: seq<Snap>, i: nat, j: nat)
    requires i < |s| && j < |s|
  {
    s[i].eventCount > s[j].eventCount || (s[i].eventCount == s[j].eventCount && i < j)
  }

  /** Every pair keeps a context that beats the one it removes. */
  ghost predicate Descending(s: seq<Snap>, merged: seq<Pair>) {
    forall p :: p in merged ==>
      exists i, j :: 0 <= i < |s| && 0 <= j < |s| && s[i].id == p.keep && s[j].id == p.remove && Beats(s, i, j)
  }

  lemma CandidatesDescend(v: GateView, s: seq<Snap>)
    ensures Descending(s, Candidates(v, s))
  {
    forall p | p in Candidates(v, s)
      ensures exists i, j :: 0 <= i < |s| && 0 <= j < |s| && s[i].id == p.keep && s[j].id == p.remove && Beats(s, i, j)
    {
      CandidatesAreGatedPairs(v, s, p);
      var i, j :| 0 <= i < j < |s| && Gate(v, s[i], s[j]) && p == Orient(s[i], s[j]);
      var (k, r) := if s[i].eventCount >= s[j].eventCount then (i, j) else (j, i);
      assert s[k].id == p.keep && s[r].id == p.remove && Beats(s, k, r);
    }
  }

  /** A pass over a snapshot is replayable and only ever merges downward in the order. */
  lemma PassIsReplayable(v: GateView, s: seq<Snap>, commits: seq<bool>)
    requires DistinctIds(s) && |commits| == |Candidates(v, s)|
    ensures Replayable(Replay(Candidates(v, s), commits))
    ensures Descending(s, Replay(Candidates(v, s), commits))
  {
    var cands := Candidates(v, s);
    CandidatesDescend(v, s);
    CandidatesAreProper(v, s);
    ReplayIsReplayable(cands, commits);
  }

  /** The context a listed one ends up in was listed too, and is itself or one that beats it. */
  lemma {:induction false} RootOutranks(s: seq<Snap>, merged: seq<Pair>, i: nat) returns (j: nat)
    requires DistinctIds(s) && Replayable(merged) && Descending(s, merged) && i < |s|
    ensures j < |s| && s[j].id == Root(merged, s[i].id)
    ensures j == i || Beats(s, j, i)
    ensures s[j].eventCount >= s[i].eventCount
    decreases |merged|
  {
    j := i;
    if merged == [] {
    } else {
      var first, next := merged[0], i;
      assert first in merged;
      ReplayableTail(merged);
      if s[i].id == first.remove {
        var k, r :| 0 <= k < |s| && 0 <= r < |s| && s[k].id == first.keep && s[r].id == first.remove && Beats(s, k, r);
        assert r == i;
        next := k;
      }
      j := RootOutranks(s, merged[1..], next);
    }
  }

  /** The context that nothing beats is never removed, so a pass never empties the snapshot. */
  lemma TopSurvives(v: GateView, s: seq<Snap>, commits: seq<bool>, top: nat)
    requires DistinctIds(s) && |commits| == |Candidates(v, s)| && top < |s|
    requires forall j: nat :: j < |s| ==> !Beats(s, j, top)
    ensures s[top].id !in Removed(Replay(Candidates(v, s), commits))
  {
    PassIsReplayable(v, s, commits);
  }

  /** Two survivors that pass the gate can only be explained by a transaction that failed. */
  lemma SurvivorsAreApart(v: GateView, s: seq<Snap>, commits: seq<bool>, i: nat, j: nat)
    requires DistinctIds(s) && |commits| == |Candidates(v, s)| && i < j < |s| && Gate(v, s[i], s[j])
    requires var gone := Removed(Replay(Candidates(v, s), commits)); s[i].id !in gone && s[j].id !in gone
    ensures exists n :: 0 <= n < |commits| && Candidates(v, s)[n] == Orient(s[i], s[j]) && !commits[n]
  {
    var cands, p := Candidates(v, s), Orient(s[i], s[j]);
    CandidatesAreGatedPairs(v, s, p);
    var n :| 0 <= n < |cands| && cands[n] == p;
    if commits[n] {
      CommittedCandidatesAreSettled(cands, commits, n);
    }
  }

  /** With every embedding present and every merge committed, surviving titles are distinct. */
  lemma TitlesBecomeUnique(v: GateView, s: seq<Snap>, commits: seq<bool>)
    requires DistinctIds(s) && |commits| == |Candidates(v, s)|
    requires AllCommitted(commits)
    requires forall i :: 0 <= i < |s| ==> s[i].id in v.centroids
    ensures var gone := Removed(Replay(Candidates(v, s), commits));
            forall i, j :: 0 <= i < j < |s| && s[i].id !in gone && s[j].id !in gone ==> s[i].title != s[j].title
  {
    var gone := Removed(Replay(Candidates(v, s), commits));
    forall i, j | 0 <= i < j < |s| && s[i].id !in gone && s[j].id !in gone ensures s[i].title != s[j].title {
      if s[i].title == s[j].title {
        SurvivorsAreApart(v, s, commits, i, j);
      }
    }
  }

  function ThreeContexts(): seq<Snap> { [Snap("a", "x", 1), Snap("b", "y", 2), Snap("c", "z", 1)] }

  /** The middle context shares a resource with each of the others, which share none. */
  ghost function ThreeView(): GateView {
    GateView(map["a" := [], "b" := [], "c" := []], map["a" := {"1"}, "b" := {"1", "2"}, "c" := {"2"}], 0.0, 0.5, x => x)
  }

  lemma ThreeGates()
    ensures var v, s := ThreeView(), ThreeContexts();
            Gate(v, s[0], s[1]) && Gate(v, s[1], s[2]) && !Gate(v, s[0], s[2])
  {
    SmallOverlaps();
  }

  lemma ThreeCandidates()
    ensures Candidates(ThreeView(), ThreeContexts()) == [Pair("b", "a"), Pair("b", "c")]
  {
    var v, s := ThreeView(), ThreeContexts();
    ThreeGates();
    assert CandidatesFrom(v, s, 2, 3) == CandidatesFrom(v, s, 3, 4) == [];
    assert CandidatesFrom(v, s, 1, 2) == [Orient(s[1], s[2])] + CandidatesFrom(v, s, 1, 3);
    assert CandidatesFrom(v, s, 1, 3) == CandidatesFrom(v, s, 2, 3);
    assert CandidatesFrom(v, s, 0, 1) == [Orient(s[0], s[1])] + CandidatesFrom(v, s, 0, 2);
    assert CandidatesFrom(v, s, 0, 2) == CandidatesFrom(v, s, 0, 3) == CandidatesFrom(v, s, 1, 2);
  }

  lemma BothReplayed(p: Pair, q: Pair)
    requires p.keep == q.keep && p.remove != q.keep && p.remove != q.remove
    ensures Replay([p, q], [true, true]) == [p, q]
  {
    assert [p][..0] == [] && [p, q][..1] == [p] && [true, true][..1] == [true];
    assert Removed([]) == {} && Removed([p]) == {p.remove};
    assert Replay([p], [true]) == [p];
  }

  lemma BothAbsorbed(p: Pair, q: Pair)
    requires p.keep == q.keep && p.remove != q.keep && p.remove != q.remove && q.remove != q.keep
    ensures Root([p, q], p.remove) == p.keep == Root([p, q], q.remove)
  {
    assert [p, q][1..] == [q] && [q][1..] == [];
    assert Root([q][1..], q.keep) == q.keep;
    assert Root([q], p.keep) == Root([q][1..], p.keep) == Root([q], q.remove);
  }

  /**
   Merging can join two contexts that never passed the gate: a busier context
   that gates with both absorbs the one and then the other.
   */
  lemma MergesJoinUngatedContexts() returns (v: GateView, s: seq<Snap>, merged: seq<Pair>)
    ensures DistinctIds(s) && |s| == 3 && |Candidates(v, s)| == 2
    ensures merged == Replay(Candidates(v, s), [true, true])
    ensures !Gate(v, s[0], s[2]) && Root(merged, s[0].id) == Root(merged, s[2].id)
  {
    v, s := ThreeView(), ThreeContexts();
    ThreeGates();
    ThreeCandidates();
    merged := [Pair("b", "a"), Pair("b", "c")];
    BothReplayed(Pair("b", "a"), Pair("b", "c"));
    BothAbsorbed(Pair("b", "a"), Pair("b", "c"));
  }

  lemma SmallOverlaps()
    ensures Jaccard.Similarity({"1"}, {"1", "2"}) == 0.5
    ensures Jaccard.Similarity({"1", "2"}, {"2"}) == 0.5
    ensures Jaccard.Similarity({"1"}, {"2"}) == 0.0
  {
    assert {"1"} * {"1", "2"} == {"1"} && {"1"} + {"1", "2"} == {"1", "2"};
    assert {"1", "2"} * {"2"} == {"2"} && {"1", "2"} + {"2"} == {"1", "2"};
    assert {"1"} * {"2"} == {};
  }
}
