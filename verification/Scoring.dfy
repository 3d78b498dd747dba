/** Choosing a work context for an event: weighted scores, then a stable argmax against a threshold. */
module Scoring {
  import opened Basics
  import opened Text
  import Jaccard

  datatype Weights = Weights(semantic: real, temporal: real, resource: real)

  /** One context as the scorer sees it. */
  datatype Candidate = Candidate(id: Id, title: string, semantic: real, temporal: real, resources: set<Id>)

  /** Overlap counts only the event's resource id, and is zero without one. */
  function ResourceOverlap(eventResource: Option<Id>, resources: set<Id>): real {
    match eventResource
    case None => 0.0
    case Some(r) => Jaccard.Similarity({r}, resources)
  }

  function TitleBoost(inferredTitle: string, title: string, lower: Lowercase): real {
    var t := lower(title);
    if inferredTitle == t then 0.20
    else if Contains(inferredTitle, t) || Contains(t, inferredTitle) then 0.10
    else 0.0
  }

  function Score(w: Weights, eventResource: Option<Id>, inferredTitle: string, c: Candidate, lower: Lowercase): real {
    w.semantic * c.semantic + w.temporal * c.temporal + w.resource * ResourceOverlap(eventResource, c.resources)
    + TitleBoost(inferredTitle, c.title, lower)
  }

  // ---- What each part of the score contributes ----

  /** A change of one similarity counts with the weight of that similarity, and with no other. */
  lemma WeightsApply(w: Weights, event: Option<Id>, title: string, c: Candidate, lower: Lowercase, x: real)
    ensures Score(w, event, title, c.(semantic := x), lower) - Score(w, event, title, c, lower)
         == w.semantic * (x - c.semantic)
    ensures Score(w, event, title, c.(temporal := x), lower) - Score(w, event, title, c, lower)
         == w.temporal * (x - c.temporal)
  {
    hide ResourceOverlap, TitleBoost;
    Difference(w.semantic, x, c.semantic);
    Difference(w.temporal, x, c.temporal);
  }

  lemma Difference(k: real, x: real, y: real)
    ensures k * x - k * y == k * (x - y)
  {
  }

  /**
   An event that names a resource gets the resource weight, shared among the
   resources of a context that has it; a context without it gets nothing.
   */
  lemma ResourceCounts(w: Weights, r: Id, title: string, c: Candidate, lower: Lowercase)
    ensures Score(w, Some(r), title, c, lower) - Score(w, None, title, c, lower)
         == if r in c.resources then w.resource * (1.0 / |c.resources| as real) else 0.0
  {
    var one := {r};
    if r in c.resources {
      assert one * c.resources == one && one + c.resources == c.resources;
    } else {
      assert one * c.resources == {} && one + c.resources != {};
      assert |one + c.resources| > 0;
      assert 0.0 / |one + c.resources| as real == 0.0;
    }
  }

  /** With nothing similar the score is the title's: a fifth for the same title, a tenth when one contains the other. */
  lemma TitleCounts(w: Weights, title: string, c: Candidate, lower: Lowercase)
    requires c.semantic == 0.0 && c.temporal == 0.0
    ensures var score := Score(w, None, title, c, lower);
            && (title == lower(c.title) ==> score == 0.20)
            && (score == 0.20 || score == 0.10 || score == 0.0)
            && (score > 0.0 <==> exists front, back ::
                  title == front + lower(c.title) + back || lower(c.title) == front + title + back)
            && (score == 0.20 ==> title == lower(c.title))
  {
    var t := lower(c.title);
    ContainsIff(title, t);
    ContainsIff(t, title);
    if title == t { assert title == "" + t + ""; }
  }

  /** Panic stands for unwrapping an empty choice. */
  datatype Decision = Reuse(index: nat, score: real) | Create(score: real) | Panic

  /** The earliest index attaining the maximum. */
  ghost predicate EarliestMax(scores: seq<real>, i: nat) {
    && i < |scores|
    && (forall k :: 0 <= k < |scores| ==> scores[k] <= scores[i])
    && (forall k :: 0 <= k < i ==> scores[k] < scores[i])
  }

  /** What a decision must be, whatever computed it. */
  ghost predicate Decides(scores: seq<real>, threshold: real, d: Decision) {
    match d
    case Reuse(i, score) =>
      EarliestMax(scores, i) && score == scores[i] && score > 0.0 && score >= threshold
    case Create(score) =>
      && threshold > 0.0
      && (forall k :: 0 <= k < |scores| ==> scores[k] < threshold)
      && 0.0 <= score && (forall k :: 0 <= k < |scores| ==> scores[k] <= score)
      && (score == 0.0 || score in scores)
    case Panic =>
      threshold <= 0.0 && forall k :: 0 <= k < |scores| ==> scores[k] <= 0.0
  }

  /** The scan as the code runs it: best_score starts at zero, best_ctx_id empty. */
  method Choose(scores: seq<real>, threshold: real) returns (d: Decision)
    ensures Decides(scores, threshold, d)
    ensures threshold > 0.0 ==> (d.Reuse? <==> exists i :: 0 <= i < |scores| && scores[i] >= threshold)
  {
    var bestScore := 0.0;
    var best: Option<nat> := None;
    for i := 0 to |scores|
      invariant bestScore >= 0.0
      invariant best.None? ==> bestScore == 0.0
      invariant forall k :: 0 <= k < i ==> scores[k] <= bestScore
      invariant best.Some? ==> best.value < i && bestScore == scores[best.value] > 0.0
      invariant best.Some? ==> forall k :: 0 <= k < best.value ==> scores[k] < bestScore
    {
      if scores[i] > bestScore {
        bestScore := scores[i];
        best := Some(i);
      }
    }
    if bestScore >= threshold {
      match best {
        case Some(i) => d := Reuse(i, bestScore);
        case None => d := Panic;
      }
    } else {
      d := Create(bestScore);
    }
  }

  /** Exactly one decision fits any scores and threshold. */
  lemma OneDecision(scores: seq<real>, threshold: real) returns (d: Decision)
    ensures Decides(scores, threshold, d)
    ensures forall e :: Decides(scores, threshold, e) ==> e == d
  {
    if scores == [] {
      d := if threshold > 0.0 then Create(0.0) else Panic;
    } else {
      var m := EarliestMaxExists(scores);
      d := if scores[m] > 0.0 && scores[m] >= threshold then Reuse(m, scores[m])
           else if threshold > 0.0 then Create(if scores[m] > 0.0 then scores[m] else 0.0)
           else Panic;
      assert scores[m] in scores;
    }
  }

  lemma {:induction false} EarliestMaxExists(scores: seq<real>) returns (m: nat)
    requires |scores| > 0
    ensures EarliestMax(scores, m)
  {
    var n := |scores| - 1;
    if n == 0 {
      m := 0;
    } else {
      m := EarliestMaxExists(scores[..n]);
      if scores[n] > scores[m] { m := n; }
    }
  }

  /**
   The configured thresholds for which no event ever unwraps an empty choice are
   exactly the positive ones: any other fails on the first event of an empty store.
   */
  lemma SafeThresholds(threshold: real)
    ensures threshold > 0.0 <==> forall scores, d :: Decides(scores, threshold, d) ==> !d.Panic?
  {
    if threshold <= 0.0 {
      assert Decides([], threshold, Panic);
    }
  }
}
