/** Version texts and precedence, after Semantic Versioning 2.0.0 (sections 2, 9 and 11). */
module SemVer {
  import opened Basics
  import opened Decimal

  datatype Ident = Num(n: nat) | Alnum(s: string)

  datatype Version = Version(major: nat, minor: nat, patch: nat, pre: seq<Ident>)

  // ---- Precedence (section 11) ----

  /** ASCII order on texts. */
  predicate LexLess(a: string, b: string) {
    b != "" && (a == "" || a[0] < b[0] || (a[0] == b[0] && LexLess(a[1..], b[1..])))
  }

  /** Numeric identifiers compare numerically and rank below the others. */
  predicate IdentLess(a: Ident, b: Ident) {
    match (a, b)
    case (Num(m), Num(n)) => m < n
    case (Num(_), Alnum(_)) => true
    case (Alnum(_), Num(_)) => false
    case (Alnum(s), Alnum(t)) => LexLess(s, t)
  }

  /** Field by field; when all the fields of one are a prefix of the other's, the longer ranks higher. */
  predicate IdentsLess(a: seq<Ident>, b: seq<Ident>) {
    b != [] && (a == [] || IdentLess(a[0], b[0]) || (a[0] == b[0] && IdentsLess(a[1..], b[1..])))
  }

  /** A pre-release ranks below the associated normal version. */
  predicate PreLess(a: seq<Ident>, b: seq<Ident>) {
    a != [] && (b == [] || IdentsLess(a, b))
  }

  predicate Precedes(a: Version, b: Version) {
    || a.major < b.major
    || (a.major == b.major && a.minor < b.minor)
    || (a.major == b.major && a.minor == b.minor && a.patch < b.patch)
    || (a.major == b.major && a.minor == b.minor && a.patch == b.patch && PreLess(a.pre, b.pre))
  }

  lemma {:induction false} LexTotal(a: string, b: string)
    ensures LexLess(a, b) || a == b || LexLess(b, a)
    ensures !(LexLess(a, b) && (a == b || LexLess(b, a)))
  {
    if a != "" && b != "" && a[0] == b[0] {
      LexTotal(a[1..], b[1..]);
      assert a == [a[0]] + a[1..] && b == [b[0]] + b[1..];
    }
  }

  lemma {:induction false} LexTransitive(a: string, b: string, c: string)
    requires LexLess(a, b) && LexLess(b, c)
    ensures LexLess(a, c)
  {
    if a != "" && a[0] == b[0] == c[0] { LexTransitive(a[1..], b[1..], c[1..]); }
  }

  lemma IdentTotal(a: Ident, b: Ident)
    ensures IdentLess(a, b) || a == b || IdentLess(b, a)
    ensures !(IdentLess(a, b) && (a == b || IdentLess(b, a)))
  {
    if a.Alnum? && b.Alnum? { LexTotal(a.s, b.s); }
  }

  lemma IdentTransitive(a: Ident, b: Ident, c: Ident)
    requires IdentLess(a, b) && IdentLess(b, c)
    ensures IdentLess(a, c)
  {
    if a.Alnum? && b.Alnum? && c.Alnum? { LexTransitive(a.s, b.s, c.s); }
  }

  lemma {:induction false} IdentsTotal(a: seq<Ident>, b: seq<Ident>)
    ensures IdentsLess(a, b) || a == b || IdentsLess(b, a)
    ensures !(IdentsLess(a, b) && (a == b || IdentsLess(b, a)))
  {
    if a != [] && b != [] {
      IdentTotal(a[0], b[0]);
      IdentsTotal(a[1..], b[1..]);
      assert a == [a[0]] + a[1..] && b == [b[0]] + b[1..];
    }
  }

  lemma {:induction false} IdentsTransitive(a: seq<Ident>, b: seq<Ident>, c: seq<Ident>)
    requires IdentsLess(a, b) && IdentsLess(b, c)
    ensures IdentsLess(a, c)
  {
    if a == [] {
    } else {
      if IdentLess(a[0], b[0]) && IdentLess(b[0], c[0]) {
        IdentTransitive(a[0], b[0], c[0]);
      } else if a[0] == b[0] == c[0] && !IdentLess(a[0], c[0]) {
        IdentTotal(a[0], a[0]);
        IdentsTransitive(a[1..], b[1..], c[1..]);
      }
    }
  }

  /** Precedence is a strict total order on versions without build metadata. */
  lemma PrecedenceIsTotal(a: Version, b: Version)
    ensures Precedes(a, b) || a == b || Precedes(b, a)
    ensures !(Precedes(a, b) && (a == b || Precedes(b, a)))
  {
    IdentsTotal(a.pre, b.pre);
  }

  lemma PrecedenceIsTransitive(a: Version, b: Version, c: Version)
    requires Precedes(a, b) && Precedes(b, c)
    ensures Precedes(a, c)
  {
    if a.pre != [] && b.pre != [] && c.pre != [] && IdentsLess(a.pre, b.pre) && IdentsLess(b.pre, c.pre) {
      IdentsTransitive(a.pre, b.pre, c.pre);
    }
  }

  function PreRelease(pre: seq<Ident>): Version { Version(1, 0, 0, pre) }

  lemma LongerRanksHigher(a: Ident, b: Ident)
    ensures Precedes(PreRelease([a]), PreRelease([a, b]))
  {
    assert [a][1..] == [] && [a, b][1..] == [b];
    assert IdentsLess([], [b]);
  }

  lemma FirstDecides(a: Ident, x: seq<Ident>, b: Ident, y: seq<Ident>)
    requires IdentLess(a, b)
    ensures Precedes(PreRelease([a] + x), PreRelease([b] + y))
  {
    assert ([a] + x)[0] == a && ([b] + y)[0] == b;
  }

  lemma SecondDecides(a: Ident, x: Ident, y: Ident)
    requires IdentLess(x, y)
    ensures Precedes(PreRelease([a, x]), PreRelease([a, y]))
  {
    assert [a, x][1..] == [x] && [a, y][1..] == [y];
    assert IdentsLess([x], [y]);
  }

  /** The example of section 11: alpha, alpha.1, alpha.beta, beta, beta.2, beta.11, rc.1, release. */
  lemma SectionElevenExample()
    ensures var alpha, beta, rc := Alnum("alpha"), Alnum("beta"), Alnum("rc");
            && Precedes(PreRelease([alpha]), PreRelease([alpha, Num(1)]))
            && Precedes(PreRelease([alpha, Num(1)]), PreRelease([alpha, beta]))
            && Precedes(PreRelease([alpha, beta]), PreRelease([beta]))
            && Precedes(PreRelease([beta]), PreRelease([beta, Num(2)]))
            && Precedes(PreRelease([beta, Num(2)]), PreRelease([beta, Num(11)]))
            && Precedes(PreRelease([beta, Num(11)]), PreRelease([rc, Num(1)]))
            && Precedes(PreRelease([rc, Num(1)]), PreRelease([]))
  {
    var alpha, beta, rc := Alnum("alpha"), Alnum("beta"), Alnum("rc");
    assert "alpha"[0] < "beta"[0] < "rc"[0];
    LongerRanksHigher(alpha, Num(1));
    SecondDecides(alpha, Num(1), beta);
    FirstDecides(alpha, [beta], beta, []);
    assert [alpha, beta] == [alpha] + [beta] && [beta] == [beta] + [];
    LongerRanksHigher(beta, Num(2));
    SecondDecides(beta, Num(2), Num(11));
    FirstDecides(beta, [Num(11)], rc, [Num(1)]);
    assert [beta, Num(11)] == [beta] + [Num(11)] && [rc, Num(1)] == [rc] + [Num(1)];
  }

  // ---- Texts (sections 2 and 9) ----

  predicate IdentChar(c: char) { IsDigit(c) || 'a' <= c <= 'z' || 'A' <= c <= 'Z' || c == '-' }

  /** A pre-release identifier: digits without a leading zero, or a text that is not all digits. */
  function ParseIdent(s: string): Option<Ident> {
    if s == "" || exists i :: 0 <= i < |s| && !IdentChar(s[i]) then None
    else if !AllDigits(s) then Some(Alnum(s))
    else if Canonical(s) then Some(Num(Value(s)))
    else None
  }

  function ParseNumber(s: string): Option<nat> {
    if Canonical(s) then Some(Value(s)) else None
  }

  /** The text before the first `c` and, if there is one, the text after it. */
  function Cut(s: string, c: char): (string, Option<string>) {
    if s == "" then ("", None)
    else if s[0] == c then ("", Some(s[1..]))
    else
      var (left, right) := Cut(s[1..], c);
      ([s[0]] + left, right)
  }

  function ParseIdents(s: string): Option<seq<Ident>>
    decreases |s|
  {
    CutShorter(s, '.');
    var (first, rest) := Cut(s, '.');
    var head := ParseIdent(first);
    if head.None? then None
    else if rest.None? then Some([head.value])
    else
      var tail := ParseIdents(rest.value);
      if tail.None? then None else Some([head.value] + tail.value)
  }

  lemma CutShorter(s: string, c: char)
    ensures Cut(s, c).1.Some? ==> |Cut(s, c).1.value| < |s|
  {
  }

  /** A version text without build metadata; nothing when the text is not one. */
  function Parse(s: string): Option<Version> {
    var (core, pre) := Cut(s, '-');
    var (major, afterMajor) := Cut(core, '.');
    if afterMajor.None? then None
    else
      var (minor, afterMinor) := Cut(afterMajor.value, '.');
      if afterMinor.None? then None
      else
        var x, y, z := ParseNumber(major), ParseNumber(minor), ParseNumber(afterMinor.value);
        if x.None? || y.None? || z.None? then None
        else if pre.None? then Some(Version(x.value, y.value, z.value, []))
        else
          var idents := ParseIdents(pre.value);
          if idents.None? then None else Some(Version(x.value, y.value, z.value, idents.value))
  }

  function CoreText(major: nat, minor: nat, patch: nat): string {
    Text(major) + "." + (Text(minor) + "." + Text(patch))
  }

  function IdentText(i: Ident): string {
    match i
    case Num(n) => Text(n)
    case Alnum(s) => s
  }

  function IdentsText(pre: seq<Ident>): string
    requires pre != []
  {
    if |pre| == 1 then IdentText(pre[0]) else IdentText(pre[0]) + "." + IdentsText(pre[1..])
  }

  function VersionText(v: Version): string {
    var core := CoreText(v.major, v.minor, v.patch);
    if v.pre == [] then core else core + "-" + IdentsText(v.pre)
  }

  predicate ValidIdent(i: Ident) {
    i.Alnum? ==> i.s != "" && !AllDigits(i.s) && forall k :: 0 <= k < |i.s| ==> IdentChar(i.s[k])
  }

  predicate ValidVersion(v: Version) { forall k :: 0 <= k < |v.pre| ==> ValidIdent(v.pre[k]) }

  lemma {:induction false} CutAt(left: string, c: char, right: string)
    requires c !in left
    ensures Cut(left + [c] + right, c) == (left, Some(right))
  {
    var s := left + [c] + right;
    if left == "" {
      assert s[1..] == right;
    } else {
      CutAt(left[1..], c, right);
      assert s[1..] == left[1..] + [c] + right;
      assert left == [left[0]] + left[1..];
    }
  }

  lemma {:induction false} CutNowhere(s: string, c: char)
    requires c !in s
    ensures Cut(s, c) == (s, None)
  {
    if s == "" {
    } else {
      CutNowhere(s[1..], c);
      assert s == [s[0]] + s[1..];
    }
  }

  lemma NumberReadsBack(n: nat)
    ensures ParseNumber(Text(n)) == Some(n)
  {
    TextReadsBack(n);
    TextIsCanonical(n);
  }

  lemma IdentReadsBack(i: Ident)
    requires ValidIdent(i)
    ensures ParseIdent(IdentText(i)) == Some(i) && '.' !in IdentText(i)
  {
    if i.Num? { NumberReadsBack(i.n); }
  }

  lemma LastField(s: string, i: Ident)
    requires ParseIdent(s) == Some(i) && '.' !in s
    ensures ParseIdents(s) == Some([i])
  {
    CutNowhere(s, '.');
  }

  lemma FirstField(s: string, i: Ident, rest: string, tail: seq<Ident>)
    requires ParseIdent(s) == Some(i) && '.' !in s && ParseIdents(rest) == Some(tail)
    ensures ParseIdents(s + "." + rest) == Some([i] + tail)
  {
    CutAt(s, '.', rest);
  }

  lemma {:induction false} IdentsReadBack(pre: seq<Ident>)
    requires pre != [] && forall k :: 0 <= k < |pre| ==> ValidIdent(pre[k])
    ensures ParseIdents(IdentsText(pre)) == Some(pre)
  {
    var i := pre[0];
    IdentReadsBack(i);
    if |pre| == 1 {
      LastField(IdentText(i), i);
      assert pre == [i];
    } else {
      IdentsReadBack(pre[1..]);
      FirstField(IdentText(i), i, IdentsText(pre[1..]), pre[1..]);
      assert pre == [i] + pre[1..];
    }
  }

  lemma CoreReadsBack(major: nat, minor: nat, patch: nat)
    ensures '-' !in CoreText(major, minor, patch)
    ensures Cut(CoreText(major, minor, patch), '.') == (Text(major), Some(Text(minor) + "." + Text(patch)))
    ensures Cut(Text(minor) + "." + Text(patch), '.') == (Text(minor), Some(Text(patch)))
  {
    CutAt(Text(major), '.', Text(minor) + "." + Text(patch));
    CutAt(Text(minor), '.', Text(patch));
  }

  /** Every version reads back from its text. */
  lemma VersionReadsBack(v: Version)
    requires ValidVersion(v)
    ensures Parse(VersionText(v)) == Some(v)
  {
    var core := CoreText(v.major, v.minor, v.patch);
    CoreReadsBack(v.major, v.minor, v.patch);
    NumberReadsBack(v.major);
    NumberReadsBack(v.minor);
    NumberReadsBack(v.patch);
    if v.pre == [] {
      CutNowhere(core, '-');
    } else {
      CutAt(core, '-', IdentsText(v.pre));
      IdentsReadBack(v.pre);
    }
  }
}
