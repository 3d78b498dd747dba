/**
 Centroids: cosine similarity, and the exponential moving average that pulls a
 centroid toward an absorbed event. Components are exact reals; the square root
 is a parameter known only by its defining property.
 */
module Vectors {
  import opened RealFacts

  type Vec = seq<real>

  ghost predicate IsSqrt(sqrt: real -> real) {
    forall x :: x >= 0.0 ==> sqrt(x) >= 0.0 && sqrt(x) * sqrt(x) == x
  }

  /** Sum of the first n products. */
  function Dot(a: Vec, b: Vec, n: nat): real
    requires n <= |a| && n <= |b|
  {
    if n == 0 then 0.0 else Dot(a, b, n - 1) + a[n - 1] * b[n - 1]
  }

  function NormSquared(a: Vec): real { Dot(a, a, |a|) }

  function Cosine(a: Vec, b: Vec, sqrt: real -> real): real {
    if |a| == 0 || |a| != |b| then 0.0
    else Ratio(Dot(a, b, |a|), sqrt(NormSquared(a)) * sqrt(NormSquared(b)))
  }

  function Ratio(x: real, denom: real): real {
    if denom == 0.0 then 0.0 else x / denom
  }

  /** (1 - lr) * centroid + lr * new, over the common prefix: the code zips the two vectors. */
  function Blend(c: Vec, v: Vec, lr: real): Vec {
    Combine(c, v, 1.0 - lr, lr)
  }

  function Combine(c: Vec, v: Vec, m: real, l: real): Vec {
    seq(|c|, i requires 0 <= i < |c| => if i < |v| then m * c[i] + l * v[i] else c[i])
  }

  function Scaled(w: Vec, norm: real): Vec
    requires norm != 0.0
  {
    seq(|w|, i requires 0 <= i < |w| => w[i] / norm)
  }

  /** The centroid after one update. */
  function Absorb(c: Vec, v: Vec, lr: real, sqrt: real -> real): Vec {
    var w := Blend(c, v, lr);
    var norm := sqrt(NormSquared(w));
    if norm > 0.0 then Scaled(w, norm) else w
  }

  /** The update as the code runs it, in place: blend, measure, divide. */
  method UpdateInPlace(centroid: array<real>, newVec: Vec, lr: real, sqrt: real -> real)
    modifies centroid
    ensures centroid[..] == Absorb(old(centroid[..]), newVec, lr, sqrt)
  {
    BlendInto(centroid, newVec, lr);
    var sum := SumOfSquares(centroid[..]);
    var norm := sqrt(sum);
    if norm > 0.0 {
      DivideBy(centroid, norm);
    }
  }

  method BlendInto(centroid: array<real>, newVec: Vec, lr: real)
    modifies centroid
    ensures centroid[..] == Blend(old(centroid[..]), newVec, lr)
  {
    ghost var c := centroid[..];
    var common := if centroid.Length < |newVec| then centroid.Length else |newVec|;
    for i := 0 to common
      invariant forall k :: 0 <= k < i ==> centroid[k] == Blend(c, newVec, lr)[k]
      invariant forall k :: i <= k < centroid.Length ==> centroid[k] == c[k]
    {
      centroid[i] := (1.0 - lr) * centroid[i] + lr * newVec[i];
    }
    assert |Blend(c, newVec, lr)| == centroid.Length;
    assert forall k :: common <= k < centroid.Length ==> Blend(c, newVec, lr)[k] == c[k];
  }

  method SumOfSquares(w: Vec) returns (sum: real)
    ensures sum == NormSquared(w)
  {
    sum := 0.0;
    for i := 0 to |w|
      invariant sum == Dot(w, w, i)
    {
      sum := sum + w[i] * w[i];
    }
  }

  method DivideBy(centroid: array<real>, norm: real)
    requires norm != 0.0
    modifies centroid
    ensures centroid[..] == Scaled(old(centroid[..]), norm)
  {
    ghost var w := centroid[..];
    for i := 0 to centroid.Length
      invariant forall k :: 0 <= k < i ==> centroid[k] == Scaled(w, norm)[k]
      invariant forall k :: i <= k < centroid.Length ==> centroid[k] == w[k]
    {
      centroid[i] := centroid[i] / norm;
    }
    assert |Scaled(w, norm)| == centroid.Length;
  }

  lemma {:induction false} DotSelf(a: Vec, n: nat)
    requires n <= |a|
    ensures Dot(a, a, n) >= 0.0
  {
    if n == 0 {
    } else {
      DotSelf(a, n - 1);
      SquareNonNegative(a[n - 1]);
    }
  }

  lemma {:induction false} DotCommutes(a: Vec, b: Vec, n: nat)
    requires n <= |a| && n <= |b|
    ensures Dot(a, b, n) == Dot(b, a, n)
  {
    if n == 0 {
    } else {
      DotCommutes(a, b, n - 1);
    }
  }

  lemma {:induction false} DotScaled(w: Vec, b: Vec, norm: real, n: nat)
    requires norm != 0.0 && n <= |w| && n <= |b|
    ensures Dot(Scaled(w, norm), b, n) == Dot(w, b, n) / norm
  {
    if n == 0 {
    } else {
      DotScaled(w, b, norm, n - 1);
      QuotientOfProduct(w[n - 1], b[n - 1], norm);
      QuotientOfSum(Dot(w, b, n - 1), w[n - 1] * b[n - 1], norm);
    }
  }

  /** A dot product with m*c + l*v. */
  ghost predicate Projects(wb: real, cb: real, vb: real, m: real, l: real) {
    wb == m * cb + l * vb
  }

  /** The Cauchy-Schwarz bound on a dot product. */
  ghost predicate Bounded(ab: real, aa: real, bb: real) {
    ab * ab <= aa * bb
  }

  lemma {:induction false} DotCombine(c: Vec, v: Vec, m: real, l: real, b: Vec, n: nat)
    requires n <= |c| && n <= |v| && n <= |b|
    ensures Projects(Dot(Combine(c, v, m, l), b, n), Dot(c, b, n), Dot(v, b, n), m, l)
  {
    if n == 0 {
    } else {
      DotCombine(c, v, m, l, b, n - 1);
      CombineStep(m, l, Dot(c, b, n - 1), Dot(v, b, n - 1), c[n - 1], v[n - 1], b[n - 1]);
    }
  }

  lemma CombineStep(m: real, l: real, cb: real, vb: real, x: real, y: real, z: real)
    ensures m * cb + l * vb + (m * x + l * y) * z == m * (cb + x * z) + l * (vb + y * z)
  {
    assert (m * x + l * y) * z == m * (x * z) + l * (y * z);
  }

  lemma {:induction false} CauchySchwarz(a: Vec, b: Vec, n: nat)
    requires n <= |a| && n <= |b|
    ensures Bounded(Dot(a, b, n), Dot(a, a, n), Dot(b, b, n))
  {
    if n == 0 {
    } else {
      CauchySchwarz(a, b, n - 1);
      DotSelf(a, n - 1);
      DotSelf(b, n - 1);
      CauchyStep(Dot(a, a, n - 1), Dot(b, b, n - 1), Dot(a, b, n - 1), a[n - 1], b[n - 1]);
    }
  }

  lemma CauchyStep(aa: real, bb: real, ab: real, x: real, y: real)
    requires aa >= 0.0 && bb >= 0.0 && Bounded(ab, aa, bb)
    ensures Bounded(ab + x * y, aa + x * x, bb + y * y)
  {
    var p, q, xy := aa * (y * y), bb * (x * x), x * y;
    CrossTerm(aa, bb, ab, x, y);
    assert (ab + xy) * (ab + xy) == ab * ab + 2.0 * (ab * xy) + xy * xy;
    assert (aa + x * x) * (bb + y * y) == aa * bb + p + q + (x * x) * (y * y);
    assert xy * xy == (x * x) * (y * y);
  }

  lemma CrossTerm(aa: real, bb: real, ab: real, x: real, y: real)
    requires aa >= 0.0 && bb >= 0.0 && ab * ab <= aa * bb
    ensures 2.0 * (ab * (x * y)) <= aa * (y * y) + bb * (x * x)
  {
    var p, q, xy := aa * (y * y), bb * (x * x), x * y;
    SquareNonNegative(x);
    SquareNonNegative(y);
    SquareNonNegative(xy);
    SquareNonNegative(p - q);
    ProductSign(aa, y * y);
    ProductSign(bb, x * x);
    MulMonotone(ab * ab, aa * bb, xy * xy);
    var m := 2.0 * (ab * xy);
    assert m * m == 4.0 * ((ab * ab) * (xy * xy));
    assert p * q == (aa * bb) * (xy * xy) by {
      assert p * q == (aa * bb) * ((y * y) * (x * x));
      assert (y * y) * (x * x) == xy * xy;
    }
    assert (p + q) * (p + q) == (p - q) * (p - q) + 4.0 * (p * q);
    SquaresOrder(m, p + q);
  }

  /** A vector divided by its own norm has norm one. */
  lemma UnitNorm(w: Vec, norm: real)
    requires norm > 0.0 && norm * norm == NormSquared(w)
    ensures NormSquared(Scaled(w, norm)) == 1.0
  {
    var u := Scaled(w, norm);
    DotScaled(w, u, norm, |w|);
    DotCommutes(w, u, |w|);
    DotScaled(w, w, norm, |w|);
    QuotientUnique(norm, norm * norm, norm);
    QuotientUnique(1.0, norm, norm);
  }

  /** The norm of what the update stores: one, or zero when the blend is the zero vector. */
  lemma AbsorbedNorm(c: Vec, v: Vec, lr: real, sqrt: real -> real)
    requires IsSqrt(sqrt)
    ensures |Absorb(c, v, lr, sqrt)| == |c|
    ensures NormSquared(Absorb(c, v, lr, sqrt)) == if NormSquared(Blend(c, v, lr)) == 0.0 then 0.0 else 1.0
  {
    var w := Blend(c, v, lr);
    DotSelf(w, |w|);
    var norm := sqrt(NormSquared(w));
    assert norm >= 0.0 && norm * norm == NormSquared(w);
    if norm * norm == 0.0 { SquareZero(norm); }
    if norm > 0.0 {
      UnitNorm(w, norm);
      assert Absorb(c, v, lr, sqrt) == Scaled(w, norm);
    } else {
      assert Absorb(c, v, lr, sqrt) == w;
      ZeroTimes(norm, norm);
      assert NormSquared(w) == 0.0;
    }
  }

  /**
   The update never moves a centroid away from the event it absorbs: for every
   pair of vectors, zero vectors and unequal lengths included.
   */
  lemma AbsorbMovesToward(c: Vec, v: Vec, lr: real, sqrt: real -> real)
    requires IsSqrt(sqrt) && 0.0 <= lr <= 1.0
    ensures Cosine(Absorb(c, v, lr, sqrt), v, sqrt) >= Cosine(c, v, sqrt)
  {
    AbsorbedNorm(c, v, lr, sqrt);
    if |c| != 0 && |c| == |v| {
      ScalingKeepsCosine(Blend(c, v, lr), v, sqrt);
      CombineMovesToward(c, v, 1.0 - lr, lr, sqrt);
    }
  }

  // ---- What the rate does ----

  lemma CombineNothing(c: Vec, v: Vec)
    ensures Combine(c, v, 1.0, 0.0) == c
  {
    forall i | 0 <= i < |c| && i < |v| ensures Combine(c, v, 1.0, 0.0)[i] == c[i] {
      ZeroTimes(0.0, v[i]);
    }
  }

  lemma CombineOnlyEvent(c: Vec, v: Vec)
    requires |c| == |v|
    ensures Combine(c, v, 0.0, 1.0) == v
  {
    forall i | 0 <= i < |c| ensures Combine(c, v, 0.0, 1.0)[i] == v[i] {
      ZeroTimes(0.0, c[i]);
    }
  }

  /** At rate zero a centroid of norm one stays as it is, whatever the event. */
  lemma RateZeroKeeps(c: Vec, v: Vec, sqrt: real -> real)
    requires IsSqrt(sqrt) && NormSquared(c) == 1.0
    ensures Absorb(c, v, 0.0, sqrt) == c
  {
    assert Blend(c, v, 0.0) == Combine(c, v, 1.0, 0.0);
    CombineNothing(c, v);
    RootOfOne(sqrt);
    assert Scaled(c, 1.0) == c;
  }

  /** At rate one the centroid becomes the event, divided by its norm. */
  lemma RateOneReplaces(c: Vec, v: Vec, sqrt: real -> real)
    requires IsSqrt(sqrt) && |c| == |v| && NormSquared(v) > 0.0
    ensures var norm := sqrt(NormSquared(v));
            norm > 0.0 && Absorb(c, v, 1.0, sqrt) == Scaled(v, norm)
  {
    assert Blend(c, v, 1.0) == Combine(c, v, 0.0, 1.0);
    CombineOnlyEvent(c, v);
    var norm := sqrt(NormSquared(v));
    if norm == 0.0 { ZeroTimes(norm, norm); }
  }

  /** A larger rate ends at least as close to the event. */
  lemma LargerRateMovesFurther(c: Vec, v: Vec, low: real, high: real, sqrt: real -> real)
    requires IsSqrt(sqrt) && 0.0 <= low <= high <= 1.0
    ensures Cosine(Absorb(c, v, high, sqrt), v, sqrt) >= Cosine(Absorb(c, v, low, sqrt), v, sqrt)
  {
    AbsorbedNorm(c, v, low, sqrt);
    AbsorbedNorm(c, v, high, sqrt);
    if |c| != 0 && |c| == |v| && low < 1.0 {
      var m, l := BlendAgain(c, v, low, high);
      ScalingKeepsCosine(Blend(c, v, low), v, sqrt);
      ScalingKeepsCosine(Blend(c, v, high), v, sqrt);
      CombineMovesToward(Blend(c, v, low), v, m, l, sqrt);
    }
  }

  /** A blend at a larger rate is a blend of the smaller one with the event. */
  lemma BlendAgain(c: Vec, v: Vec, low: real, high: real) returns (m: real, l: real)
    requires |c| == |v| && 0.0 <= low <= high <= 1.0 && low < 1.0
    ensures m >= 0.0 && l >= 0.0 && m + l > 0.0
    ensures Combine(Blend(c, v, low), v, m, l) == Blend(c, v, high)
  {
    m := (1.0 - high) / (1.0 - low);
    Quotient(1.0 - high, 1.0 - low);
    QuotientSign(1.0 - high, 1.0 - low);
    ProductSign(1.0 - low, 1.0 - m);
    MulMonotone(m, 1.0, low);
    l := high - m * low;
    assert m * (1.0 - low) == m - m * low;
    assert m + l == 1.0 by {
      assert m - m * low == 1.0 - high;
    }
    forall i | 0 <= i < |c| ensures Combine(Blend(c, v, low), v, m, l)[i] == Blend(c, v, high)[i] {
      TwoBlends(m, low, high, l, c[i], v[i]);
    }
  }

  lemma TwoBlends(m: real, low: real, high: real, l: real, x: real, y: real)
    requires m - m * low == 1.0 - high && l == high - m * low
    ensures m * ((1.0 - low) * x + low * y) + l * y == (1.0 - high) * x + high * y
  {
    assert m * ((1.0 - low) * x + low * y) == (m - m * low) * x + (m * low) * y;
  }

  /** The cosine lies between -1 and 1, is one for a vector with itself, and zero where it is undefined. */
  lemma CosineMeaning(a: Vec, b: Vec, sqrt: real -> real)
    requires IsSqrt(sqrt)
    ensures -1.0 <= Cosine(a, b, sqrt) <= 1.0
    ensures Cosine(a, b, sqrt) == Cosine(b, a, sqrt)
    ensures a == b && NormSquared(a) > 0.0 ==> Cosine(a, b, sqrt) == 1.0
    ensures |a| != |b| || NormSquared(a) == 0.0 || NormSquared(b) == 0.0 ==> Cosine(a, b, sqrt) == 0.0
  {
    var sa, sb := sqrt(NormSquared(a)), sqrt(NormSquared(b));
    DotSelf(a, |a|);
    DotSelf(b, |b|);
    assert sa * sb == sb * sa;
    if NormSquared(a) == 0.0 { SquareZero(sa); ZeroTimes(sa, sb); }
    if NormSquared(b) == 0.0 { SquareZero(sb); ZeroTimes(sb, sa); }
    if |a| == |b| && |a| > 0 {
      var ab := Dot(a, b, |a|);
      DotCommutes(a, b, |a|);
      CauchySchwarz(a, b, |a|);
      CosineIsRatio(a, b, sqrt, ab, sa, sb);
      CosineIsRatio(b, a, sqrt, ab, sb, sa);
      RatioBounds(ab, sa, sb, NormSquared(a), NormSquared(b));
      if a == b && NormSquared(a) > 0.0 { QuotientUnique(1.0, ab, sa * sb); }
    }
  }

  lemma RatioBounds(ab: real, sa: real, sb: real, aa: real, bb: real)
    requires sa >= 0.0 && sb >= 0.0 && sa * sa == aa && sb * sb == bb && Bounded(ab, aa, bb)
    ensures -1.0 <= Ratio(ab, sa * sb) <= 1.0
  {
    var d := sa * sb;
    ProductSign(sa, sb);
    assert d * d == aa * bb;
    SquaresOrder(ab, d);
    assert (-ab) * (-ab) == ab * ab;
    SquaresOrder(-ab, d);
    if d > 0.0 {
      var q := ab / d;
      Quotient(ab, d);
      CancelFactor(q, 1.0, d);
      CancelFactor(-1.0, q, d);
    }
  }

  lemma RootOfOne(sqrt: real -> real)
    requires IsSqrt(sqrt)
    ensures sqrt(1.0) == 1.0
  {
    var one := sqrt(1.0);
    assert one >= 0.0 && one * one == 1.0;
    SquaresOrder(one, 1.0);
    SquaresOrder(1.0, one);
  }

  /** Dividing a dot product and a norm by the same number. */
  lemma SameRatio(x: real, norm: real, other: real)
    requires norm > 0.0
    ensures Ratio(x / norm, 1.0 * other) == Ratio(x, norm * other)
  {
    if other == 0.0 {
      ZeroTimes(other, norm);
    } else {
      QuotientTwice(x, norm, other);
    }
  }

  lemma ScalingKeepsCosine(w: Vec, v: Vec, sqrt: real -> real)
    requires IsSqrt(sqrt) && |w| == |v| && |w| > 0
    ensures var norm := sqrt(NormSquared(w));
            norm > 0.0 ==> Cosine(Scaled(w, norm), v, sqrt) == Cosine(w, v, sqrt)
  {
    DotSelf(w, |w|);
    var norm, other := sqrt(NormSquared(w)), sqrt(NormSquared(v));
    if norm > 0.0 {
      var u := Scaled(w, norm);
      UnitNorm(w, norm);
      RootOfOne(sqrt);
      DotScaled(w, v, norm, |w|);
      CosineIsRatio(u, v, sqrt, Dot(w, v, |w|) / norm, 1.0, other);
      CosineIsRatio(w, v, sqrt, Dot(w, v, |w|), norm, other);
      SameRatio(Dot(w, v, |w|), norm, other);
    }
  }

  lemma CombineMovesToward(c: Vec, v: Vec, m: real, l: real, sqrt: real -> real)
    requires IsSqrt(sqrt) && m >= 0.0 && l >= 0.0 && m + l > 0.0 && |c| == |v| && |c| > 0
    ensures Cosine(Combine(c, v, m, l), v, sqrt) >= Cosine(c, v, sqrt)
  {
    var w := Combine(c, v, m, l);
    var sc, sv, sw := sqrt(NormSquared(c)), sqrt(NormSquared(v)), sqrt(NormSquared(w));
    NormsAreSquares(c, v, w, sqrt);
    CombineRatio(c, v, m, l, sc, sv, sw);
    CosineIsRatio(c, v, sqrt, Dot(c, v, |c|), sc, sv);
    CosineIsRatio(w, v, sqrt, Dot(w, v, |c|), sw, sv);
  }

  lemma CombineRatio(c: Vec, v: Vec, m: real, l: real, sc: real, sv: real, sw: real)
    requires m >= 0.0 && l >= 0.0 && m + l > 0.0 && |c| == |v|
    requires sc >= 0.0 && sv >= 0.0 && sw >= 0.0
    requires sc * sc == NormSquared(c) && sv * sv == NormSquared(v) && sw * sw == NormSquared(Combine(c, v, m, l))
    ensures Ratio(Dot(Combine(c, v, m, l), v, |c|), sw * sv) >= Ratio(Dot(c, v, |c|), sc * sv)
  {
    var w, n := Combine(c, v, m, l), |c|;
    var cc, vv, ww, cv, wv := NormSquared(c), NormSquared(v), NormSquared(w), Dot(c, v, n), Dot(w, v, n);
    CombineProducts(c, v, m, l);
    Angles(cc, vv, ww, cv, wv, sc, sv, sw, m, l);
  }

  lemma CombineProducts(c: Vec, v: Vec, m: real, l: real)
    requires |c| == |v|
    ensures var w, n := Combine(c, v, m, l), |c|;
            Projects(Dot(w, v, n), Dot(c, v, n), NormSquared(v), m, l)
            && Bounded(Dot(c, v, n), NormSquared(c), NormSquared(v))
            && Bounded(Dot(w, v, n), NormSquared(w), NormSquared(v))
            && Expands(NormSquared(c), NormSquared(v), NormSquared(w), Dot(c, v, n), m, l)
  {
    var w, n := Combine(c, v, m, l), |c|;
    DotCombine(c, v, m, l, v, n);
    CauchySchwarz(c, v, n);
    CauchySchwarz(w, v, n);
    CombineNorm(c, v, m, l);
  }

  lemma CosineIsRatio(a: Vec, b: Vec, sqrt: real -> real, ab: real, sa: real, sb: real)
    requires |a| == |b| && |a| > 0
    requires ab == Dot(a, b, |a|) && sa == sqrt(NormSquared(a)) && sb == sqrt(NormSquared(b))
    ensures Cosine(a, b, sqrt) == Ratio(ab, sa * sb)
  {
  }

  lemma NormsAreSquares(c: Vec, v: Vec, w: Vec, sqrt: real -> real)
    requires IsSqrt(sqrt)
    ensures forall a :: a in {c, v, w} ==> sqrt(NormSquared(a)) >= 0.0
    ensures forall a :: a in {c, v, w} ==> sqrt(NormSquared(a)) * sqrt(NormSquared(a)) == NormSquared(a)
  {
    DotSelf(c, |c|);
    DotSelf(v, |v|);
    DotSelf(w, |w|);
  }

  lemma CombineNorm(c: Vec, v: Vec, m: real, l: real)
    requires |c| == |v|
    ensures Expands(NormSquared(c), NormSquared(v), NormSquared(Combine(c, v, m, l)), Dot(c, v, |c|), m, l)
  {
    var w, n := Combine(c, v, m, l), |c|;
    DotCombine(c, v, m, l, w, n);
    DotCombine(c, v, m, l, c, n);
    DotCombine(c, v, m, l, v, n);
    DotCommutes(c, w, n);
    DotCommutes(v, w, n);
    DotCommutes(v, c, n);
    Nest(m, l, Dot(c, w, n), Dot(w, c, n), Dot(v, w, n), Dot(w, v, n), NormSquared(w),
         NormSquared(c), Dot(c, v, n), Dot(v, c, n), NormSquared(v));
  }

  /** |m*c + l*v|^2 multiplied out. */
  ghost predicate Expands(cc: real, vv: real, ww: real, cv: real, m: real, l: real) {
    ww == m * (m * cc + l * cv) + l * (m * cv + l * vv)
  }

  lemma Nest(m: real, l: real, cw: real, wc: real, vw: real, wv: real, ww: real,
             cc: real, cv: real, vc: real, vv: real)
    requires cw == wc && vw == wv && vc == cv
    requires Projects(ww, cw, vw, m, l) && Projects(wc, cc, vc, m, l) && Projects(wv, cv, vv, m, l)
    ensures Expands(cc, vv, ww, cv, m, l)
  {
  }

  /** A non-negative combination w = m*c + l*v makes no larger an angle with v than c does. */
  lemma Angles(cc: real, vv: real, ww: real, cv: real, wv: real, sc: real, sv: real, sw: real, m: real, l: real)
    requires sc >= 0.0 && sv >= 0.0 && sw >= 0.0 && m >= 0.0 && l >= 0.0 && m + l > 0.0
    requires sc * sc == cc && sv * sv == vv && sw * sw == ww
    requires Projects(wv, cv, vv, m, l) && Expands(cc, vv, ww, cv, m, l)
    requires Bounded(cv, cc, vv) && Bounded(wv, ww, vv)
    ensures Ratio(wv, sw * sv) >= Ratio(cv, sc * sv)
  {
    ProductSign(sc, sv);
    ProductSign(sw, sv);
    SquareNonNegative(sv);
    if sv == 0.0 {
    } else if sc == 0.0 {
      ZeroCentroid(cc, vv, cv, wv, m, l);
      if sw > 0.0 { QuotientSign(wv, sw * sv); }
    } else if sw == 0.0 {
      ZeroBlend(ww, vv, cv, wv, m, l);
      QuotientSign(-cv, sc * sv);
      Quotient(cv, sc * sv);
      QuotientUnique(-(cv / (sc * sv)), -cv, sc * sv);
    } else {
      assert sv > 0.0 && sc > 0.0 && sw > 0.0;
      ConeAngle(cc, vv, ww, cv, wv, sc, sv, sw, m, l);
      MulMonotone(cv * sw, wv * sc, sv);
      Regroup(cv, sw, sv);
      Regroup(wv, sc, sv);
      CrossDivide(cv, sc * sv, wv, sw * sv);
    }
  }

  lemma Regroup(x: real, y: real, z: real)
    ensures (x * y) * z == x * (y * z)
  {
  }

  lemma ZeroCentroid(cc: real, vv: real, cv: real, wv: real, m: real, l: real)
    requires cc == 0.0 && vv >= 0.0 && l >= 0.0
    requires cv * cv <= cc * vv && wv == m * cv + l * vv
    ensures cv == 0.0 && wv >= 0.0
  {
    ZeroTimes(cc, vv);
    SquareZero(cv);
    ZeroTimes(cv, m);
    ProductSign(l, vv);
  }

  /** The blend is the zero vector only when the event points away from the centroid. */
  lemma ZeroBlend(ww: real, vv: real, cv: real, wv: real, m: real, l: real)
    requires ww == 0.0 && vv > 0.0 && m >= 0.0 && l >= 0.0 && m + l > 0.0
    requires wv * wv <= ww * vv && wv == m * cv + l * vv
    ensures wv == 0.0 && cv <= 0.0
  {
    ZeroTimes(ww, vv);
    SquareZero(wv);
    ProductSign(m, cv);
    ProductSign(l, vv);
  }

  /** cos(c, v) <= cos(w, v), cross-multiplied. */
  lemma ConeAngle(cc: real, vv: real, ww: real, cv: real, wv: real, sc: real, sv: real, sw: real, m: real, l: real)
    requires sc >= 0.0 && sv >= 0.0 && sw >= 0.0 && m >= 0.0 && l >= 0.0
    requires sc * sc == cc && sv * sv == vv && sw * sw == ww
    requires wv == m * cv + l * vv
    requires Expands(cc, vv, ww, cv, m, l)
    requires cv * cv <= cc * vv
    ensures cv * sw <= wv * sc
  {
    var gap, k, a, b := cc * vv - cv * cv, 2.0 * (m * cv) + l * vv, cv * sw, wv * sc;
    ConeIdentity(cc, vv, cv, m, l);
    assert b * b == cc * (wv * wv) && a * a == (cv * cv) * (sw * sw);
    assert b * b - a * a == l * (gap * k);
    SquareNonNegative(sv);
    ProductSign(l, vv);
    ProductSign(m, cv);
    ProductSign(-m, cv);
    assert (-m) * cv == -(m * cv);
    ProductSign(cv, sw);
    ProductSign(wv, sc);
    if cv >= 0.0 {
      ProductSign(gap, k);
      ProductSign(l, gap * k);
      SquaresOrder(a, b);
    } else if wv < 0.0 {
      ProductSign(m, -cv);
      assert m * (-cv) == -(m * cv);
      ProductSign(k, gap);
      assert k * gap == gap * k;
      ProductSign(gap * k, l);
      assert (gap * k) * l == l * (gap * k);
      assert (-b) * (-b) == b * b && (-a) * (-a) == a * a;
      SquaresOrder(-b, -a);
    }
  }

  lemma ConeIdentity(cc: real, vv: real, cv: real, m: real, l: real)
    ensures var wv := m * cv + l * vv;
            var ww := m * (m * cc + l * cv) + l * (m * cv + l * vv);
            cc * (wv * wv) - (cv * cv) * ww == l * ((cc * vv - cv * cv) * (2.0 * (m * cv) + l * vv))
  {
    var mc, lv := m * cv, l * vv;
    assert (mc + lv) * (mc + lv) == mc * mc + 2.0 * (mc * lv) + lv * lv;
    assert cc * (mc * mc) == (cv * cv) * (m * (m * cc));
    assert cc * (mc * lv) == l * ((cc * vv) * mc);
    assert cc * (lv * lv) == l * ((cc * vv) * lv);
    assert (cv * cv) * (m * (l * cv)) == l * ((cv * cv) * mc);
    assert (cv * cv) * (l * mc) == l * ((cv * cv) * mc);
    assert (cv * cv) * (l * lv) == l * ((cv * cv) * lv);
    Distribute(cc, mc * mc, mc * lv, lv * lv);
    Distribute4(cv * cv, m * (m * cc), m * (l * cv), l * mc, l * lv);
    assert m * (m * cc + l * cv) == m * (m * cc) + m * (l * cv);
    assert l * (mc + lv) == l * mc + l * lv;
    var g := cc * vv - cv * cv;
    assert g * (2.0 * mc + lv) == 2.0 * ((cc * vv) * mc) + (cc * vv) * lv - 2.0 * ((cv * cv) * mc) - (cv * cv) * lv;
    Distribute4(l, 2.0 * ((cc * vv) * mc), (cc * vv) * lv, -2.0 * ((cv * cv) * mc), -((cv * cv) * lv));
  }

  lemma Distribute(k: real, a: real, b: real, c: real)
    ensures k * (a + 2.0 * b + c) == k * a + 2.0 * (k * b) + k * c
  {
  }

  lemma Distribute4(k: real, a: real, b: real, c: real, d: real)
    ensures k * (a + b + (c + d)) == k * a + k * b + (k * c + k * d)
  {
  }
}
