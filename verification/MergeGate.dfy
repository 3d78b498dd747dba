/** Which contexts a merge pass pairs, told by the two similarities and the two thresholds. */
module MergeGate {
  import opened Basics
  import opened Vectors
  import opened MergePass
  import Jaccard

  ghost predicate Paired(cands: seq<Pair>, a: Id, b: Id) {
    Pair(a, b) in cands || Pair(b, a) in cands
  }

  /**
   Two listed contexts become a candidate pair exactly when both have a
   centroid and either their titles are equal, or the cosine of the centroids
   reaches its threshold and the overlap of the resources reaches its own.
   */
  lemma PairedIff(v: GateView, s: seq<Snap>, i: nat, j: nat)
    requires DistinctIds(s) && i < j < |s|
    ensures Paired(Candidates(v, s), s[i].id, s[j].id) <==>
            && s[i].id in v.centroids && s[j].id in v.centroids
            && (s[i].title == s[j].title
                || (Cosine(v.centroids[s[i].id], v.centroids[s[j].id], v.sqrt) >= v.mergeThreshold
                    && Jaccard.Similarity(ResourcesOf(v, s[i].id), ResourcesOf(v, s[j].id)) >= v.overlapMin))
  {
    var a, b := s[i].id, s[j].id;
    CandidatesAreGatedPairs(v, s, Pair(a, b));
    CandidatesAreGatedPairs(v, s, Pair(b, a));
  }

  /** With a centroid each and different titles, it is the two similarities alone that count. */
  lemma SimilarityDecides(v: GateView, s: seq<Snap>, i: nat, j: nat)
    requires DistinctIds(s) && i < j < |s| && s[i].title != s[j].title
    requires s[i].id in v.centroids && s[j].id in v.centroids
    ensures Paired(Candidates(v, s), s[i].id, s[j].id) <==>
            && Cosine(v.centroids[s[i].id], v.centroids[s[j].id], v.sqrt) >= v.mergeThreshold
            && Jaccard.Similarity(ResourcesOf(v, s[i].id), ResourcesOf(v, s[j].id)) >= v.overlapMin
  {
    PairedIff(v, s, i, j);
  }

  ghost predicate OneTitle(s: seq<Snap>, p: Pair) {
    exists i, j :: 0 <= i < |s| && 0 <= j < |s| && s[i].id == p.keep && s[j].id == p.remove && s[i].title == s[j].title
  }

  /** A similarity threshold above one, or an overlap above one, leaves only equal titles to be merged. */
  lemma OutOfReachLeavesTitles(v: GateView, s: seq<Snap>, commits: seq<bool>, p: Pair)
    requires IsSqrt(v.sqrt) && DistinctIds(s) && |commits| == |Candidates(v, s)|
    requires v.mergeThreshold > 1.0 || v.overlapMin > 1.0
    requires p in Replay(Candidates(v, s), commits)
    ensures OneTitle(s, p)
  {
    CandidatesAreProper(v, s);
    ReplayIsReplayable(Candidates(v, s), commits);
    CandidatesAreGatedPairs(v, s, p);
    var i, j :| 0 <= i < j < |s| && Gate(v, s[i], s[j]) && p == Orient(s[i], s[j]);
    CosineMeaning(v.centroids[s[i].id], v.centroids[s[j].id], v.sqrt);
    Jaccard.Bounds(ResourcesOf(v, s[i].id), ResourcesOf(v, s[j].id));
    assert s[i].title == s[j].title;
    assert s[if p.keep == s[i].id then i else j].id == p.keep;
  }

  /** Thresholds that every pair of cached contexts reaches: then all of them are candidates. */
  lemma LowThresholdsPairAll(v: GateView, s: seq<Snap>, i: nat, j: nat)
    requires IsSqrt(v.sqrt) && DistinctIds(s) && i < j < |s|
    requires v.mergeThreshold <= -1.0 && v.overlapMin <= 0.0
    ensures Paired(Candidates(v, s), s[i].id, s[j].id) <==> s[i].id in v.centroids && s[j].id in v.centroids
  {
    PairedIff(v, s, i, j);
    if s[i].id in v.centroids && s[j].id in v.centroids {
      CosineMeaning(v.centroids[s[i].id], v.centroids[s[j].id], v.sqrt);
      Jaccard.Bounds(ResourcesOf(v, s[i].id), ResourcesOf(v, s[j].id));
    }
  }

  /** Raising either threshold only removes candidates. */
  lemma StricterPairsLess(v: GateView, s: seq<Snap>, mergeThreshold: real, overlapMin: real, p: Pair)
    requires mergeThreshold >= v.mergeThreshold && overlapMin >= v.overlapMin
    requires p in Candidates(v.(mergeThreshold := mergeThreshold, overlapMin := overlapMin), s)
    ensures p in Candidates(v, s)
  {
    var w := v.(mergeThreshold := mergeThreshold, overlapMin := overlapMin);
    CandidatesAreGatedPairs(w, s, p);
    var i, j :| 0 <= i < j < |s| && Gate(w, s[i], s[j]) && p == Orient(s[i], s[j]);
    assert ResourcesOf(w, s[i].id) == ResourcesOf(v, s[i].id) && ResourcesOf(w, s[j].id) == ResourcesOf(v, s[j].id);
    assert Gate(v, s[i], s[j]);
    CandidatesAreGatedPairs(v, s, p);
  }
}
