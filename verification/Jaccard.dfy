/** The resource-overlap gate: Jaccard similarity of two finite sets. */
module Jaccard {
  import opened RealFacts

  function Similarity<T(==)>(a: set<T>, b: set<T>): (j: real)
  {
    if |a| == 0 && |b| == 0 then 0.0
    else
      var shared := |a * b|;
      var union := |a + b|;
      if union == 0 then 0.0 else shared as real / union as real
  }

  /** For sets that are not both empty, the similarity is one minus the relative difference. */
  lemma AsDistance<T>(a: set<T>, b: set<T>)
    requires a + b != {}
    ensures |a * b| == |a + b| - |Difference(a, b)|
    ensures Similarity(a, b) == 1.0 - |Difference(a, b)| as real / |a + b| as real
    ensures |Difference(a, b)| <= |a + b|
  {
    assert a + b == (a * b) + Difference(a, b);
    assert (a * b) * Difference(a, b) == {};
    var s, d, u := |a * b| as real, |Difference(a, b)| as real, |a + b| as real;
    QuotientOfSum(u - d, d, u);
    QuotientUnique(1.0, u, u);
    if a == {} { assert b == a + b; } else { assert |a| != 0; }
  }

  ghost function Difference<T>(a: set<T>, b: set<T>): set<T> {
    (a - b) + (b - a)
  }

  /** Range, symmetry, and when the extremes are reached. */
  lemma Bounds<T>(a: set<T>, b: set<T>)
    ensures 0.0 <= Similarity(a, b) <= 1.0
    ensures Similarity(a, b) == Similarity(b, a)
    ensures Similarity(a, b) == 1.0 <==> a == b && a != {}
    ensures Similarity(a, b) == 0.0 <==> a * b == {}
  {
    assert a * b == b * a && a + b == b + a;
    if a + b == {} {
      assert a == {} && b == {};
    } else {
      AsDistance(a, b);
      var d, u := |Difference(a, b)|, |a + b|;
      DivBounds(d as real, u as real);
      if d == 0 {
        assert Difference(a, b) == {};
        forall x ensures x in a <==> x in b {
          assert x !in Difference(a, b);
        }
      }
      if a == b { assert Difference(a, b) == {}; }
    }
  }

  lemma DivBounds(d: real, u: real)
    requires 0.0 <= d <= u && u > 0.0
    ensures 0.0 <= d / u <= 1.0
    ensures d / u == 0.0 <==> d == 0.0
    ensures d / u == 1.0 <==> d == u
  {
    var q := d / u;
    Quotient(d, u);
    QuotientSign(d, u);
    CancelFactor(q, 1.0, u);
  }

  /**
   The gate is nearly transitive: two overlaps bound the third from below.
   It holds for all finite sets, the empty ones included.
   */
  lemma NearTransitive<T>(a: set<T>, b: set<T>, c: set<T>)
    ensures Similarity(a, b) + Similarity(b, c) <= 1.0 + Similarity(a, c)
  {
    Bounds(a, b);
    Bounds(b, c);
    Bounds(a, c);
    if a != {} && b != {} && c != {} {
      AsDistance(a, b);
      AsDistance(b, c);
      AsDistance(a, c);
      var only := b - (a + c);
      var n := |a + c| + |only|;
      DifferencesAdd(a, b, c, only);
      UnionInside(a, b, c, only, n);
      UnionInside(c, b, a, only, n);
      assert c + b == b + c && c + a == a + c;
      DistanceTriangle(|Difference(a, b)| as real, |a + b| as real, |Difference(b, c)| as real, |b + c| as real,
                       |Difference(a, c)| as real, |a + c| as real, |only| as real);
    }
  }

  lemma UnionInside<T>(a: set<T>, b: set<T>, c: set<T>, only: set<T>, n: nat)
    requires only == b - (a + c) && n == |a + c| + |only|
    ensures |a + b| <= n
  {
    var all := (a + c) + only;
    assert (a + c) * only == {};
    assert all == (a + b) + (c - (a + b));
  }

  /** Elements of b alone are counted on both sides of the detour through b. */
  lemma DifferencesAdd<T>(a: set<T>, b: set<T>, c: set<T>, only: set<T>)
    requires only == b - (a + c)
    ensures |Difference(a, c)| + 2 * |only| <= |Difference(a, b)| + |Difference(b, c)|
  {
    var ab, bc, ac := Difference(a, b), Difference(b, c), Difference(a, c);
    assert |ab| + |bc| == |ab + bc| + |ab * bc|;
    assert ac * only == {};
    assert ac + only <= ab + bc;
    assert |ac + only| == |ac| + |only|;
    SubsetSize(ac + only, ab + bc);
    SubsetSize(only, ab * bc);
  }

  lemma SubsetSize<T>(a: set<T>, b: set<T>)
    requires a <= b
    ensures |a| <= |b|
  {
    assert b == a + (b - a);
  }

  /** The arithmetic of the triangle inequality for relative differences. */
  lemma DistanceTriangle(ab: real, uab: real, bc: real, ubc: real, ac: real, uac: real, only: real)
    requires 0.0 <= ab && 0.0 <= bc && 0.0 <= ac <= uac && 0.0 <= only
    requires 0.0 < uab <= uac + only && 0.0 < ubc <= uac + only && 0.0 < uac
    requires ac + 2.0 * only <= ab + bc
    ensures ac / uac <= ab / uab + bc / ubc
  {
    var n := uac + only;
    WiderDenominator(ab, uab, n);
    WiderDenominator(bc, ubc, n);
    QuotientOfSum(ab, bc, n);
    Mediant(ac, uac, only);
    MulMonotone(ac + only, ab + bc, n);
    CrossDivide(ac + only, n, ab + bc, n);
  }

  lemma WiderDenominator(x: real, u: real, n: real)
    requires 0.0 <= x && 0.0 < u <= n
    ensures x / n <= x / u
  {
    MulMonotone(u, n, x);
    CrossDivide(x, n, x, u);
  }

  lemma Mediant(x: real, u: real, only: real)
    requires 0.0 <= x <= u && 0.0 < u && 0.0 <= only
    ensures x / u <= (x + only) / (u + only)
  {
    MulMonotone(x, u, only);
    assert x * (u + only) == x * u + x * only;
    assert (x + only) * u == x * u + u * only;
    CrossDivide(x, u, x + only, u + only);
  }

  /** Two overlaps of at least t force the third to be at least 2t - 1. */
  lemma OverlapsCompose<T>(a: set<T>, b: set<T>, c: set<T>, t: real)
    requires Similarity(a, b) >= t && Similarity(b, c) >= t
    ensures Similarity(a, c) >= 2.0 * t - 1.0
  {
    NearTransitive(a, b, c);
  }

  /** Each set of the chain overlaps the next one by at least t. */
  ghost predicate Linked<T>(chain: seq<set<T>>, t: real) {
    forall i, j :: 0 <= i < |chain| && j == i + 1 && j < |chain| ==> Similarity(chain[i], chain[j]) >= t
  }

  /** Along a chain of gated overlaps the ends lose at most 1 - t per link. */
  lemma {:induction false} OverlapChain<T>(chain: seq<set<T>>, t: real)
    requires |chain| > 1 && Linked(chain, t)
    ensures Similarity(chain[0], chain[|chain| - 1]) >= 1.0 - Loss(|chain| - 1, t)
  {
    var n := |chain| - 1;
    assert Similarity(chain[n - 1], chain[n]) >= t;
    LossPerLink(n - 1, t);
    if n > 1 {
      var front := chain[..n];
      assert Linked(front, t);
      OverlapChain(front, t);
      NearTransitive(chain[0], chain[n - 1], chain[n]);
    } else {
      NoLoss(t);
    }
  }

  ghost function Loss(links: nat, t: real): real {
    links as real * (1.0 - t)
  }

  lemma LossPerLink(links: nat, t: real)
    ensures Loss(links + 1, t) == Loss(links, t) + (1.0 - t)
  {
    assert (links + 1) as real == links as real + 1.0;
  }

  lemma NoLoss(t: real)
    ensures Loss(0, t) == 0.0
  {
  }
}
