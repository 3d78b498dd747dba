/**
 Release numbering: reading stable tags, choosing the next alpha version, and
 what holds over every history of tagging.
 */
module Release {
  import opened Basics
  import opened Calendar
  import opened Decimal
  import opened SemVer

  // ---- Tag formats ----

  /** The three digit groups of a stable tag. */
  datatype Groups = Groups(year: string, month: string, day: string)

  ghost predicate IsDotted(tag: string, g: Groups) {
    && tag == "stable-v" + g.year + "." + g.month + "." + g.day
    && |g.year| == 4 && 1 <= |g.month| <= 2 && 1 <= |g.day| <= 2
    && AllDigits(g.year) && AllDigits(g.month) && AllDigits(g.day)
  }

  ghost predicate IsLegacy(tag: string, g: Groups) {
    && tag == "v" + g.year + "-" + g.month + "-" + g.day
    && |g.year| == 4 && |g.month| == 2 && |g.day| == 2
    && AllDigits(g.year) && AllDigits(g.month) && AllDigits(g.day)
  }

  /** Four, one or two, and one or two digits, separated by dots. */
  function MatchDotted(tag: string): Option<Groups> {
    if !("stable-v" <= tag && |tag| >= 16 && tag[12] == '.') then None
    else
      var rest := tag[13..];
      var m := if rest[1] == '.' then 1 else 2;
      if rest[m] != '.' then None
      else
        var g := Groups(tag[8..12], rest[..m], rest[m + 1..]);
        if 1 <= |g.day| <= 2 && AllDigits(g.year) && AllDigits(g.month) && AllDigits(g.day) then Some(g) else None
  }

  function MatchLegacy(tag: string): Option<Groups> {
    if !(|tag| == 11 && tag[0] == 'v' && tag[5] == '-' && tag[8] == '-') then None
    else
      var g := Groups(tag[1..5], tag[6..8], tag[9..]);
      if AllDigits(g.year) && AllDigits(g.month) && AllDigits(g.day) then Some(g) else None
  }

  lemma DottedMatches(tag: string, g: Groups)
    requires IsDotted(tag, g)
    ensures MatchDotted(tag) == Some(g)
  {
    assert tag[..8] == "stable-v" && tag[8..12] == g.year && tag[12] == '.';
    var rest := tag[13..];
    assert rest == g.month + "." + g.day;
    if |g.month| == 2 { assert IsDigit(g.month[1]) && rest[1] == g.month[1]; }
    assert rest[..|g.month|] == g.month && rest[|g.month|] == '.' && rest[|g.month| + 1..] == g.day;
  }

  /** The matcher accepts exactly the tags of the format, with exactly their groups. */
  lemma DottedFormat(tag: string, g: Groups)
    ensures MatchDotted(tag) == Some(g) <==> IsDotted(tag, g)
  {
    if IsDotted(tag, g) { DottedMatches(tag, g); }
    if MatchDotted(tag) == Some(g) {
      var rest := tag[13..];
      assert rest == g.month + "." + g.day;
      assert tag == tag[..8] + tag[8..12] + [tag[12]] + rest;
    }
  }

  lemma LegacyFormat(tag: string, g: Groups)
    ensures MatchLegacy(tag) == Some(g) <==> IsLegacy(tag, g)
  {
    if IsLegacy(tag, g) {
      assert tag[1..5] == g.year && tag[6..8] == g.month && tag[9..] == g.day;
    }
    if MatchLegacy(tag) == Some(g) {
      assert tag == "v" + tag[1..5] + "-" + tag[6..8] + "-" + tag[9..];
    }
  }

  predicate Natural(d: Date) { d.year >= 0 && d.month >= 0 && d.day >= 0 }

  function DateOf(g: Groups): Date
    requires AllDigits(g.year) && AllDigits(g.month) && AllDigits(g.day)
  {
    Date(Value(g.year), Value(g.month), Value(g.day))
  }

  /** The date a stable tag names, whether or not it exists in the calendar. */
  function NamedDate(tag: string): (d: Option<Date>)
    ensures d.Some? ==> Natural(d.value)
  {
    match MatchDotted(tag)
    case Some(g) => Some(DateOf(g))
    case None =>
      match MatchLegacy(tag)
      case Some(g) => Some(DateOf(g))
      case None => None
  }

  /** The tags git lists for the two glob patterns. */
  predicate Listed(tag: string) { "stable-v" <= tag || "v20" <= tag }

  function ListedDate(tag: string): Option<Date> {
    if Listed(tag) then NamedDate(tag) else None
  }

  // ---- The latest stable date ----

  datatype Failure = InvalidDate | DateOverflow

  ghost predicate HasInvalidDate(tags: set<string>) {
    exists t :: t in tags && ListedDate(t).Some? && !Valid(ListedDate(t).value)
  }

  ghost predicate IsLatest(tags: set<string>, latest: Option<Date>) {
    match latest
    case None => forall t :: t in tags ==> ListedDate(t).None?
    case Some(d) =>
      && Valid(d)
      && (exists t :: t in tags && ListedDate(t) == Some(d))
      && (forall t :: t in tags && ListedDate(t).Some? ==> NotAfter(ListedDate(t).value, d))
  }

  function TagSet(tags: seq<string>): set<string> { set t | t in tags }

  /** The scan, in whatever order git lists the tags. */
  method LatestStableDate(tags: seq<string>) returns (r: Result<Option<Date>, Failure>)
    ensures r.Err? <==> HasInvalidDate(TagSet(tags))
    ensures r.Err? ==> r.error == InvalidDate
    ensures r.Ok? ==> IsLatest(TagSet(tags), r.value)
  {
    var latest: Option<Date> := None;
    for i := 0 to |tags|
      invariant forall k :: 0 <= k < i && ListedDate(tags[k]).Some? ==>
                  && Valid(ListedDate(tags[k]).value)
                  && latest.Some? && NotAfter(ListedDate(tags[k]).value, latest.value)
      invariant latest.Some? ==> Valid(latest.value) && exists k :: 0 <= k < i && ListedDate(tags[k]) == latest
    {
      if !Listed(tags[i]) { continue; }
      var named := NamedDate(tags[i]);
      if named.None? { continue; }
      if !Valid(named.value) {
        assert tags[i] in TagSet(tags);
        return Err(InvalidDate);
      }
      if latest.None? || Before(latest.value, named.value) {
        latest := named;
      }
    }
    r := Ok(latest);
  }

  // ---- The next alpha ----

  function AlphaDate(today: Date, latest: Option<Date>): Result<Date, Failure> {
    if latest.None? || Before(latest.value, today) then Ok(today)
    else
      match NextDay(latest.value)
      case Some(d) => Ok(d)
      case None => Err(DateOverflow)
  }

  /** The earliest date that is not before today and is after the latest stable one. */
  lemma AlphaDateIsLeast(today: Date, latest: Option<Date>)
    requires Valid(today) && (latest.Some? ==> Valid(latest.value))
    ensures match AlphaDate(today, latest)
            case Ok(d) =>
              && Valid(d) && NotAfter(today, d) && (latest.Some? ==> Before(latest.value, d))
              && forall x :: Valid(x) && NotAfter(today, x) && (latest.Some? ==> Before(latest.value, x)) ==>
                  NotAfter(d, x)
            case Err(e) => e == DateOverflow && latest == Some(LAST_DAY)
  {
    if latest.Some? && !Before(latest.value, today) {
      NextDayAddsOne(latest.value);
      forall x | Valid(x) && Before(latest.value, x) ensures NotAfter(NextDay(latest.value).value, x) {
        NextDayIsLeast(latest.value, x);
      }
      if NextDay(latest.value).Some? {
        OrdinalIsTheOrder(latest.value, NextDay(latest.value).value);
      }
    }
  }

  function CalendarVersion(d: Date): string
    requires Valid(d)
  {
    CoreText(d.year, d.month, d.day)
  }

  function Prefix(calendar: string): string { "alpha-v" + calendar + "-alpha." }

  /** The number of an alpha tag with this prefix. */
  function SeqOf(prefix: string, tag: string): Option<nat> {
    if prefix <= tag && tag != prefix && AllDigits(tag[|prefix|..]) then Some(Value(tag[|prefix|..])) else None
  }

  /** The largest number used with this prefix, 0 when none is. */
  ghost predicate IsHighest(tags: set<string>, prefix: string, n: nat) {
    && (forall t :: t in tags && SeqOf(prefix, t).Some? ==> SeqOf(prefix, t).value <= n)
    && (n == 0 || exists t :: t in tags && SeqOf(prefix, t) == Some(n))
  }

  datatype Names = Names(version: string, tag: string, display: string)

  function NamesFor(calendar: string, n: nat): Names {
    Names(calendar + "-alpha." + Text(n), Prefix(calendar) + Padded(n, 4), "Alpha " + calendar + "." + Text(n))
  }

  method NextAlphaVersion(calendar: string, tags: seq<string>) returns (n: nat, names: Names)
    ensures n >= 1 && IsHighest(TagSet(tags), Prefix(calendar), n - 1)
    ensures names == NamesFor(calendar, n)
  {
    var prefix := Prefix(calendar);
    n := 0;
    for i := 0 to |tags|
      invariant forall k :: 0 <= k < i && SeqOf(prefix, tags[k]).Some? ==> SeqOf(prefix, tags[k]).value <= n
      invariant n == 0 || exists k :: 0 <= k < i && SeqOf(prefix, tags[k]) == Some(n)
    {
      match SeqOf(prefix, tags[i]) {
        case Some(m) => n := Max(n, m);
        case None =>
      }
    }
    n := n + 1;
    names := NamesFor(calendar, n);
  }

  /** What a run of the alpha channel produced. */
  datatype Alpha = Alpha(date: Date, number: nat, names: Names)

  ghost predicate IsNextAlpha(tags: set<string>, d: Date, a: Alpha) {
    && Valid(d) && a.date == d && a.number >= 1
    && IsHighest(tags, Prefix(CalendarVersion(d)), a.number - 1)
    && a.names == NamesFor(CalendarVersion(d), a.number)
  }

  ghost predicate FromLatest(tags: set<string>, today: Date, latest: Option<Date>, r: Result<Alpha, Failure>) {
    && IsLatest(tags, latest)
    && match AlphaDate(today, latest)
       case Ok(d) => r.Ok? && IsNextAlpha(tags, d, r.value)
       case Err(e) => r == Err(e)
  }

  /** The outcome of the alpha channel, as a relation between the set of tags and the result. */
  ghost predicate AlphaOutcome(tags: set<string>, today: Date, r: Result<Alpha, Failure>) {
    if HasInvalidDate(tags) then r == Err(InvalidDate)
    else exists latest :: FromLatest(tags, today, latest, r)
  }

  method ReleaseAlpha(today: Date, tags: seq<string>) returns (r: Result<Alpha, Failure>)
    requires Valid(today)
    ensures AlphaOutcome(TagSet(tags), today, r)
  {
    var stable := LatestStableDate(tags);
    if stable.Err? { return Err(stable.error); }
    AlphaDateIsLeast(today, stable.value);
    var date := AlphaDate(today, stable.value);
    if date.Err? {
      r := Err(date.error);
    } else {
      var n, names := NextAlphaVersion(CalendarVersion(date.value), tags);
      r := Ok(Alpha(date.value, n, names));
    }
    assert FromLatest(TagSet(tags), today, stable.value, r);
  }

  lemma LatestIsBounded(tags: set<string>, more: set<string>, d: Date, latest: Option<Date>)
    requires tags <= more && IsLatest(tags, Some(d)) && IsLatest(more, latest)
    ensures latest.Some? && NotAfter(d, latest.value)
  {
    var t :| t in tags && ListedDate(t) == Some(d);
    assert t in more;
  }

  lemma LatestIsUnique(tags: set<string>, l: Option<Date>, m: Option<Date>)
    requires IsLatest(tags, l) && IsLatest(tags, m)
    ensures l == m
  {
    if l.Some? { LatestIsBounded(tags, tags, l.value, m); }
    if m.Some? { LatestIsBounded(tags, tags, m.value, l); }
  }

  lemma NextAlphaIsUnique(tags: set<string>, d: Date, a: Alpha, b: Alpha)
    requires IsNextAlpha(tags, d, a) && IsNextAlpha(tags, d, b)
    ensures a == b
  {
    assert a.number == b.number;
  }

  /** The set of tags and the date fix the outcome: the order git lists tags in does not matter. */
  lemma OutcomeIsDetermined(tags: set<string>, today: Date, r: Result<Alpha, Failure>, q: Result<Alpha, Failure>)
    requires AlphaOutcome(tags, today, r) && AlphaOutcome(tags, today, q)
    ensures r == q
  {
    if !HasInvalidDate(tags) {
      var l :| FromLatest(tags, today, l, r);
      var m :| FromLatest(tags, today, m, q);
      LatestIsUnique(tags, l, m);
      var date := AlphaDate(today, l);
      if date.Ok? { NextAlphaIsUnique(tags, date.value, r.value, q.value); }
    }
  }

  lemma {:induction false} LatestExists(tags: set<string>) returns (latest: Option<Date>)
    requires !HasInvalidDate(tags)
    ensures IsLatest(tags, latest)
  {
    latest := None;
    if tags == {} {
    } else {
      var t :| t in tags;
      assert !HasInvalidDate(tags - {t});
      latest := LatestExists(tags - {t});
      latest := LatestOfOneMore(tags, t, latest);
    }
  }

  lemma LatestOfOneMore(tags: set<string>, t: string, latest: Option<Date>) returns (later: Option<Date>)
    requires t in tags && !HasInvalidDate(tags) && IsLatest(tags - {t}, latest)
    ensures IsLatest(tags, later)
  {
    var rest := tags - {t};
    assert tags == rest + {t};
    if ListedDate(t).Some? && (latest.None? || Before(latest.value, ListedDate(t).value)) {
      later := ListedDate(t);
      assert Valid(later.value);
      forall u | u in tags && ListedDate(u).Some? ensures NotAfter(ListedDate(u).value, later.value) {
        assert u == t || u in rest;
      }
    } else {
      later := latest;
      if later.Some? { NamedStays(rest, tags, later.value); }
    }
  }

  lemma NamedStays(rest: set<string>, tags: set<string>, d: Date)
    requires rest <= tags && exists u :: u in rest && ListedDate(u) == Some(d)
    ensures exists u :: u in tags && ListedDate(u) == Some(d)
  {
    var u :| u in rest && ListedDate(u) == Some(d);
    assert u in tags;
  }

  lemma {:induction false} HighestExists(tags: set<string>, prefix: string) returns (n: nat)
    ensures IsHighest(tags, prefix, n)
  {
    n := 0;
    if tags == {} {
    } else {
      var t :| t in tags;
      n := HighestExists(tags - {t}, prefix);
      var m := SeqOf(prefix, t);
      forall u | u in tags && SeqOf(prefix, u).Some?
        ensures SeqOf(prefix, u).value <= if m.Some? && m.value > n then m.value else n
      {
        assert u == t || u in tags - {t};
      }
      n := if m.Some? && m.value > n then m.value else n;
    }
  }

  lemma NextAlphaExists(tags: set<string>, d: Date) returns (a: Alpha)
    requires Valid(d)
    ensures IsNextAlpha(tags, d, a)
  {
    var calendar := CalendarVersion(d);
    var n := HighestExists(tags, Prefix(calendar));
    a := Alpha(d, n + 1, NamesFor(calendar, n + 1));
  }

  /** Every set of tags has an outcome on every day. */
  lemma OutcomeExists(tags: set<string>, today: Date) returns (r: Result<Alpha, Failure>)
    requires Valid(today)
    ensures AlphaOutcome(tags, today, r)
  {
    if HasInvalidDate(tags) {
      r := Err(InvalidDate);
    } else {
      var latest := LatestExists(tags);
      AlphaDateIsLeast(today, latest);
      var date := AlphaDate(today, latest);
      if date.Ok? {
        var a := NextAlphaExists(tags, date.value);
        r := Ok(a);
      } else {
        r := Err(date.error);
      }
      assert FromLatest(tags, today, latest, r);
    }
  }

  /** It fails exactly when a listed stable tag names no calendar date, or the very last one. */
  lemma FailsIff(tags: set<string>, today: Date, r: Result<Alpha, Failure>)
    requires Valid(today) && AlphaOutcome(tags, today, r)
    ensures r.Err? <==> HasInvalidDate(tags) || exists t :: t in tags && ListedDate(t) == Some(LAST_DAY)
  {
    if !HasInvalidDate(tags) {
      var l :| FromLatest(tags, today, l, r);
      AlphaDateIsLeast(today, l);
      if l.Some? {
        NextDayAddsOne(l.value);
      }
    }
  }

  // ---- Versions ----

  function StableVersion(d: Date): Version
    requires Natural(d)
  {
    Version(d.year, d.month, d.day, [])
  }

  function AlphaVersion(d: Date, n: nat): Version
    requires Natural(d)
  {
    Version(d.year, d.month, d.day, [Alnum("alpha"), Num(n)])
  }

  /** The printed alpha text is a version text, of exactly this date and number. */
  lemma AlphaTextReadsBack(d: Date, n: nat)
    requires Valid(d)
    ensures Parse(NamesFor(CalendarVersion(d), n).version) == Some(AlphaVersion(d, n))
  {
    var v := AlphaVersion(d, n);
    assert !IsDigit(v.pre[0].s[0]);
    VersionReadsBack(v);
    assert v.pre[1..] == [Num(n)];
    assert IdentsText(v.pre) == "alpha" + "." + Text(n);
    var core := CalendarVersion(d);
    assert core + "-" + ("alpha" + "." + Text(n)) == core + "-alpha." + Text(n);
  }

  lemma AlphaOrder(d: Date, m: nat, e: Date, n: nat)
    requires Natural(d) && Natural(e)
    ensures Precedes(AlphaVersion(d, m), AlphaVersion(e, n)) <==> Before(d, e) || (d == e && m < n)
    ensures Precedes(StableVersion(d), AlphaVersion(e, n)) <==> Before(d, e)
  {
    var a, b := AlphaVersion(d, m).pre, AlphaVersion(e, n).pre;
    IdentTotal(a[0], b[0]);
    assert a[1..] == [Num(m)] && b[1..] == [Num(n)];
    assert IdentsLess(a, b) == IdentsLess(a[1..], b[1..]);
    assert IdentsLess([Num(m)], [Num(n)]) <==> m < n;
  }

  // ---- Histories ----

  /** Someone pushes a tag, or the alpha channel runs and its tag, if any, is created. */
  datatype Event = Push(tag: string) | Run(today: Date, outcome: Result<Alpha, Failure>)

  function TagOf(e: Event): Option<string> {
    match e
    case Push(tag) => Some(tag)
    case Run(_, Ok(a)) => Some(a.names.tag)
    case Run(_, Err(_)) => None
  }

  function TagsAfter(h: seq<Event>): set<string> {
    set i | 0 <= i < |h| && TagOf(h[i]).Some? :: TagOf(h[i]).value
  }

  /** Tags are only added, the clock never goes back, and each run saw the tags of its time. */
  ghost predicate History(h: seq<Event>) {
    && (forall i :: 0 <= i < |h| && h[i].Run? ==>
          Valid(h[i].today) && AlphaOutcome(TagsAfter(h[..i]), h[i].today, h[i].outcome))
    && (forall i, j :: 0 <= i < j < |h| && h[i].Run? && h[j].Run? ==> NotAfter(h[i].today, h[j].today))
  }

  ghost predicate Released(h: seq<Event>, i: nat) {
    i < |h| && h[i].Run? && h[i].outcome.Ok?
  }

  lemma TagsOnlyGrow(h: seq<Event>, i: nat, j: nat)
    requires i < j <= |h|
    ensures TagsAfter(h[..i]) <= TagsAfter(h[..j])
    ensures TagOf(h[i]).Some? ==> TagOf(h[i]).value in TagsAfter(h[..j])
  {
    forall t | t in TagsAfter(h[..i]) ensures t in TagsAfter(h[..j]) {
      var k :| 0 <= k < i && TagOf(h[..i][k]) == Some(t);
      assert h[..j][k] == h[..i][k];
    }
    assert h[..j][i] == h[i];
  }

  lemma AboveListed(tags: set<string>, today: Date, latest: Option<Date>, d: Date, t: string)
    requires Valid(today) && IsLatest(tags, latest) && AlphaDate(today, latest) == Ok(d)
    requires t in tags && ListedDate(t).Some?
    ensures Before(ListedDate(t).value, d)
  {
    AlphaDateIsLeast(today, latest);
  }

  /** What one successful run says about its own date and number. */
  lemma OneRun(tags: set<string>, today: Date, a: Alpha)
    requires Valid(today) && AlphaOutcome(tags, today, Ok(a))
    ensures exists latest :: IsLatest(tags, latest) && AlphaDate(today, latest) == Ok(a.date)
    ensures IsNextAlpha(tags, a.date, a)
    ensures forall t :: t in tags && ListedDate(t).Some? ==> Before(ListedDate(t).value, a.date)
  {
    var latest :| FromLatest(tags, today, latest, Ok(a));
    forall t | t in tags && ListedDate(t).Some? ensures Before(ListedDate(t).value, a.date) {
      AboveListed(tags, today, latest, a.date, t);
    }
  }

  lemma TagNumber(calendar: string, n: nat)
    ensures SeqOf(Prefix(calendar), NamesFor(calendar, n).tag) == Some(n)
  {
    var prefix, tag := Prefix(calendar), NamesFor(calendar, n).tag;
    assert tag[|prefix|..] == Padded(n, 4) && tag[..|prefix|] == prefix;
    PaddedReadsBack(n, 4);
  }

  /**
   Numbers count up: the next alpha of a day is numbered above every tag already
   printed for that day, and only the first is numbered without a predecessor.
   */
  lemma NumbersCountUp(tags: set<string>, today: Date, a: Alpha)
    requires Valid(today) && AlphaOutcome(tags, today, Ok(a))
    ensures forall n: nat :: AlphaTag(a.date, n) in tags ==> n < a.number
    ensures a.names.tag == AlphaTag(a.date, a.number)
    ensures a.number > 1 ==> exists digits :: AlphaStem(a.date) + digits in tags && Numbers(digits, a.number - 1)
  {
    OneRun(tags, today, a);
    var calendar := CalendarVersion(a.date);
    assert AlphaStem(a.date) == Prefix(calendar);
    forall n: nat | AlphaTag(a.date, n) in tags ensures n < a.number {
      assert AlphaTag(a.date, n) == NamesFor(calendar, n).tag;
      TagNumber(calendar, n);
    }
    if a.number > 1 {
      var t :| t in tags && SeqOf(Prefix(calendar), t) == Some((a.number - 1) as nat);
      assert t == AlphaStem(a.date) + t[|AlphaStem(a.date)|..];
    }
  }

  predicate Numbers(digits: string, n: int) { digits != "" && AllDigits(digits) && Value(digits) == n }

  /** The tag names of a day's alphas, up to the number. */
  function AlphaStem(d: Date): string
    requires Natural(d)
  {
    "alpha-v" + (Text(d.year) + "." + (Text(d.month) + "." + Text(d.day))) + "-alpha."
  }

  function AlphaTag(d: Date, n: nat): string
    requires Natural(d)
  {
    AlphaStem(d) + Padded(n, 4)
  }

  /** After the fourth alpha of 7 March 2026 comes the fifth, under these names. */
  lemma FifthAlpha(r: Result<Alpha, Failure>)
    requires AlphaOutcome({"alpha-v2026.3.7-alpha.0004"}, Date(2026, 3, 7), r)
    ensures r == Ok(Alpha(Date(2026, 3, 7), 5,
                          Names("2026.3.7-alpha.5", "alpha-v2026.3.7-alpha.0005", "Alpha 2026.3.7.5")))
  {
    var tag, today := "alpha-v2026.3.7-alpha.0004", Date(2026, 3, 7);
    hide AlphaOutcome, ListedDate, SeqOf, NamesFor, CalendarVersion;
    FifthNames();
    TagNumber("2026.3.7", 4);
    AlphasAreNotListed(tag);
    AfterOneAlpha(tag, today, "2026.3.7", 4, r);
  }

  lemma AlphasAreNotListed(tag: string)
    requires tag != "" && tag[0] == 'a'
    ensures ListedDate(tag).None?
  {
  }

  /** An only tag, the n-th alpha of today. */
  lemma AfterOneAlpha(tag: string, today: Date, calendar: string, n: nat, r: Result<Alpha, Failure>)
    requires Valid(today) && calendar == CalendarVersion(today)
    requires ListedDate(tag).None? && SeqOf(Prefix(calendar), tag) == Some(n)
    requires AlphaOutcome({tag}, today, r)
    ensures r == Ok(Alpha(today, n + 1, NamesFor(calendar, n + 1)))
  {
    hide SeqOf, NamesFor, Prefix, CalendarVersion;
    assert IsLatest({tag}, None) && !HasInvalidDate({tag});
    var l :| FromLatest({tag}, today, l, r);
    LatestIsUnique({tag}, l, None);
    assert IsHighest({tag}, Prefix(calendar), n);
    assert IsNextAlpha({tag}, today, Alpha(today, n + 1, NamesFor(calendar, n + 1)));
    NextAlphaIsUnique({tag}, today, r.value, Alpha(today, n + 1, NamesFor(calendar, n + 1)));
  }

  lemma FifthNames()
    ensures CalendarVersion(Date(2026, 3, 7)) == "2026.3.7"
    ensures NamesFor("2026.3.7", 4).tag == "alpha-v2026.3.7-alpha.0004"
    ensures NamesFor("2026.3.7", 5)
         == Names("2026.3.7-alpha.5", "alpha-v2026.3.7-alpha.0005", "Alpha 2026.3.7.5")
  {
    TextOf2026();
    assert Text(4) == "4" && Text(5) == "5";
    PaddedDigit(4);
    PaddedDigit(5);
    hide Text, Padded;
    ShortTexts();
  }

  lemma ShortTexts()
    ensures "2026" + "." + ("3" + "." + "7") == "2026.3.7"
    ensures "alpha-v" + "2026.3.7" + "-alpha." == "alpha-v2026.3.7-alpha."
    ensures "alpha-v2026.3.7-alpha." + ("000" + "4") == "alpha-v2026.3.7-alpha.0004"
    ensures "alpha-v2026.3.7-alpha." + ("000" + "5") == "alpha-v2026.3.7-alpha.0005"
  {
  }

  lemma TextOf2026()
    ensures Text(2026) == "2026" && Text(3) == "3" && Text(7) == "7"
  {
    assert Text(2) == "2" && Text(20) == "20" && Text(202) == "202";
  }

  lemma PaddedDigit(n: nat)
    requires n < 10
    ensures Padded(n, 4) == "000" + Text(n)
  {
    var t := Text(n);
    assert |t| == 1;
    assert ZeroFilled("0" + ("0" + ("0" + t)), 4) == "0" + ("0" + ("0" + t));
    assert ZeroFilled("0" + ("0" + t), 4) == "0" + ("0" + ("0" + t));
    assert ZeroFilled("0" + t, 4) == "0" + ("0" + ("0" + t));
    assert "0" + ("0" + ("0" + t)) == "000" + t;
  }

  /** With more tags and a later clock, the alpha date does not move back. */
  lemma DateNeverMovesBack(seen: set<string>, day: Date, earlier: Date, now: set<string>, today: Date, a: Alpha)
    requires Valid(day) && Valid(today) && NotAfter(day, today) && seen <= now
    requires exists l :: IsLatest(seen, l) && AlphaDate(day, l) == Ok(earlier)
    requires AlphaOutcome(now, today, Ok(a))
    ensures NotAfter(earlier, a.date)
  {
    OneRun(now, today, a);
    var l :| IsLatest(seen, l) && AlphaDate(day, l) == Ok(earlier);
    var m :| FromLatest(now, today, m, Ok(a));
    AlphaDateIsLeast(day, l);
    AlphaDateIsLeast(today, m);
    if l.Some? { LatestIsBounded(seen, now, l.value, m); }
  }

  /** Over every history: each alpha ranks above every earlier one. */
  lemma AlphasIncrease(h: seq<Event>, i: nat, j: nat)
    requires History(h) && i < j && Released(h, i) && Released(h, j)
    ensures var a, b := h[i].outcome.value, h[j].outcome.value;
            && Parse(a.names.version).Some? && Parse(b.names.version).Some?
            && Precedes(Parse(a.names.version).value, Parse(b.names.version).value)
  {
    var a, b := h[i].outcome.value, h[j].outcome.value;
    var before, now := TagsAfter(h[..i]), TagsAfter(h[..j]);
    TagsOnlyGrow(h, i, j);
    OneRun(before, h[i].today, a);
    OneRun(now, h[j].today, b);
    DateNeverMovesBack(before, h[i].today, a.date, now, h[j].today, b);
    TagNumber(CalendarVersion(a.date), a.number);
    AlphaTextReadsBack(a.date, a.number);
    AlphaTextReadsBack(b.date, b.number);
    AlphaOrder(a.date, a.number, b.date, b.number);
  }

  /** Over every history: each alpha has a new tag and ranks above every stable version git lists. */
  lemma AlphaIsFreshAndAboveStables(h: seq<Event>, j: nat)
    requires History(h) && Released(h, j)
    ensures var a, now := h[j].outcome.value, TagsAfter(h[..j]);
            && a.names.tag !in now
            && Parse(a.names.version).Some?
            && forall t :: t in now && ListedDate(t).Some? ==>
                 Precedes(StableVersion(ListedDate(t).value), Parse(a.names.version).value)
  {
    var a, now := h[j].outcome.value, TagsAfter(h[..j]);
    OneRun(now, h[j].today, a);
    TagNumber(CalendarVersion(a.date), a.number);
    AlphaTextReadsBack(a.date, a.number);
    forall t | t in now && ListedDate(t).Some?
      ensures Precedes(StableVersion(ListedDate(t).value), Parse(a.names.version).value)
    {
      AlphaOrder(ListedDate(t).value, 0, a.date, a.number);
    }
  }

  /** Once the alpha channel fails it fails for ever: tags are not taken back. */
  lemma FailuresPersist(h: seq<Event>, i: nat, j: nat)
    requires History(h) && i < j < |h| && h[i].Run? && h[j].Run? && h[i].outcome.Err?
    ensures h[j].outcome.Err?
  {
    TagsOnlyGrow(h, i, j);
    FailsIff(TagsAfter(h[..i]), h[i].today, h[i].outcome);
    FailsIff(TagsAfter(h[..j]), h[j].today, h[j].outcome);
  }

  // ---- Stable tags that git does not list ----

  /**
   A tag the stable channel accepts but neither git's listing nor the release
   workflow matches: legacy, of a year outside 20xx.
   */
  lemma HiddenIff(tag: string)
    ensures NamedDate(tag).Some? && !Listed(tag) <==> MatchLegacy(tag).Some? && tag[1..3] != "20"
  {
    if MatchDotted(tag).Some? {
      assert tag[0] == 's';
    }
    if MatchLegacy(tag).Some? {
      assert "v20" <= tag <==> tag[1..3] == "20" by {
        assert tag[..3] == "v" + tag[1..3];
      }
      assert !("stable-v" <= tag);
    }
  }

  /** Listed tag `u` names a date whose next day is after `x`. */
  predicate PushesPast(u: string, x: Date) {
    match ListedDate(u)
    case Some(d) => NextDay(d).Some? && Before(x, NextDay(d).value)
    case None => false
  }

  /** Told from the tags and the clock alone: the next alpha will be dated after `x`. */
  ghost predicate DatedBeforeNextAlpha(tags: set<string>, today: Date, x: Date) {
    Before(x, today) || exists u :: u in tags && PushesPast(u, x)
  }

  lemma BeforeNextAlphaIff(tags: set<string>, today: Date, a: Alpha, x: Date)
    requires Valid(today) && AlphaOutcome(tags, today, Ok(a))
    ensures Before(x, a.date) <==> DatedBeforeNextAlpha(tags, today, x)
  {
    OneRun(tags, today, a);
    var latest :| FromLatest(tags, today, latest, Ok(a));
    AlphaDateIsLeast(today, latest);
    if Before(x, a.date) && a.date != today {
      var u :| u in tags && ListedDate(u) == latest;
      assert PushesPast(u, x);
    }
    if u :| u in tags && PushesPast(u, x) {
      NextDayIsLeast(ListedDate(u).value, a.date);
    }
  }

  /**
   An alpha ranks above every stable version exactly when each legacy tag of a
   year outside 20xx is dated before today or before the day after a listed one.
   */
  lemma AboveEveryStableIff(tags: set<string>, today: Date, a: Alpha)
    requires Valid(today) && AlphaOutcome(tags, today, Ok(a))
    ensures (forall t :: t in tags && NamedDate(t).Some? ==>
               Precedes(StableVersion(NamedDate(t).value), AlphaVersion(a.date, a.number)))
        <==> (forall t :: t in tags && MatchLegacy(t).Some? && t[1..3] != "20" ==>
                NamedDate(t).Some? && DatedBeforeNextAlpha(tags, today, NamedDate(t).value))
  {
    OneRun(tags, today, a);
    forall t | t in tags && NamedDate(t).Some?
      ensures Precedes(StableVersion(NamedDate(t).value), AlphaVersion(a.date, a.number))
         <==> DatedBeforeNextAlpha(tags, today, NamedDate(t).value)
      ensures !(MatchLegacy(t).Some? && t[1..3] != "20") ==> Before(NamedDate(t).value, a.date)
    {
      AlphaOrder(NamedDate(t).value, 0, a.date, a.number);
      BeforeNextAlphaIff(tags, today, a, NamedDate(t).value);
      HiddenIff(t);
    }
    forall t | t in tags && MatchLegacy(t).Some? && t[1..3] != "20" ensures NamedDate(t).Some? {
      HiddenIff(t);
    }
  }

  lemma YearReads()
    ensures AllDigits("2100") && Value("2100") == 2100 && AllDigits("01") && Value("01") == 1
  {
    var s := "2100";
    assert s[..3] == "210" && s[..3][..2] == "21" && s[..3][..2][..1] == "2";
    assert Value("2") == 10 * Value("2"[..0]) + 2;
    assert Value("21") == 21;
    assert Value("210") == 210;
    assert "01"[..1] == "0";
  }

  lemma HiddenTag()
    ensures NamedDate("v2100-01-01") == Some(Date(2100, 1, 1)) && !Listed("v2100-01-01")
  {
    var tag := "v2100-01-01";
    YearReads();
    LegacyFormat(tag, Groups("2100", "01", "01"));
    assert MatchLegacy(tag) == Some(Groups("2100", "01", "01"));
    assert tag[0] == 'v' && "stable-v"[0] == 's' && tag[2] == '1' && "v20"[2] == '0';
    assert MatchDotted(tag) == None;
  }

  /** The guard can fail: a tag for 2100-01-01 is invisible, and an alpha of 2026 ranks below its version. */
  lemma HiddenStableOutranksAlpha() returns (a: Alpha)
    ensures AlphaOutcome({"v2100-01-01"}, Date(2026, 6, 16), Ok(a)) && Natural(a.date)
    ensures NamedDate("v2100-01-01") == Some(Date(2100, 1, 1))
    ensures Precedes(AlphaVersion(a.date, a.number), StableVersion(Date(2100, 1, 1)))
  {
    HiddenTag();
    var tags, today := {"v2100-01-01"}, Date(2026, 6, 16);
    var r := OutcomeExists(tags, today);
    assert IsLatest(tags, None) && !HasInvalidDate(tags);
    var latest :| FromLatest(tags, today, latest, r);
    LatestIsUnique(tags, latest, None);
    a := r.value;
  }

  // ---- The stable channel ----

  /** The version text printed for a stable tag: raw groups for the dotted form, numbers for the legacy one. */
  function StableText(tag: string): Option<string> {
    match MatchDotted(tag)
    case Some(g) => Some(g.year + "." + (g.month + "." + g.day))
    case None =>
      match MatchLegacy(tag)
      case Some(g) => Some(g.year + "." + (Text(Value(g.month)) + "." + Text(Value(g.day))))
      case None => None
  }

  lemma TripleReads(x: string, y: string, z: string)
    requires AllDigits(x) && AllDigits(y) && AllDigits(z)
    ensures var v := Parse(x + "." + (y + "." + z));
            if Canonical(x) && Canonical(y) && Canonical(z)
            then v == Some(Version(Value(x), Value(y), Value(z), [])) && VersionText(v.value) == x + "." + (y + "." + z)
            else v == None
  {
    if Canonical(x) && Canonical(y) && Canonical(z) {
      CanonicalIsText(x);
      CanonicalIsText(y);
      CanonicalIsText(z);
    }
    var s := x + "." + (y + "." + z);
    assert '-' !in s;
    CutNowhere(s, '-');
    CutAt(x, '.', y + "." + z);
    CutAt(y, '.', z);
  }

  /**
   The printed stable text is a version exactly when the year, and in the dotted
   form also the month and day, carry no leading zero; then it is the named date,
   and the text is the one text of that version.
   */
  lemma StableTextIsVersionIff(tag: string)
    requires StableText(tag).Some?
    ensures var v := Parse(StableText(tag).value);
            && (v.Some? <==>
                  match MatchDotted(tag)
                  case Some(g) => Canonical(g.year) && Canonical(g.month) && Canonical(g.day)
                  case None => MatchLegacy(tag).Some? && Canonical(MatchLegacy(tag).value.year))
            && (v.Some? ==>
                  v == Some(StableVersion(NamedDate(tag).value)) && VersionText(v.value) == StableText(tag).value)
  {
    match MatchDotted(tag) {
      case Some(g) => TripleReads(g.year, g.month, g.day);
      case None =>
        var g := MatchLegacy(tag).value;
        var m, d := Value(g.month), Value(g.day);
        TextReadsBack(m);
        TextReadsBack(d);
        TextIsCanonical(m);
        TextIsCanonical(d);
        TripleReads(g.year, Text(m), Text(d));
    }
  }

  // ---- Two tags that go wrong ----

  lemma TwoDigits(s: string)
    requires |s| == 2 && AllDigits(s)
    ensures Value(s) == 10 * (s[0] - '0') as nat + (s[1] - '0') as nat
  {
    assert s[..1] == [s[0]] && s[..1][..0] == "";
    assert Value(s[..1]) == (s[0] - '0') as nat;
  }

  /** A month with a leading zero: the stable text of this accepted tag is not a version. */
  lemma LeadingZeroIsNoVersion()
    ensures StableText("stable-v2026.06.16").Some? && Parse(StableText("stable-v2026.06.16").value) == None
  {
    var g := Groups("2026", "06", "16");
    assert "stable-v" + g.year + "." + g.month + "." + g.day == "stable-v2026.06.16";
    DottedFormat("stable-v2026.06.16", g);
    StableTextIsVersionIff("stable-v2026.06.16");
  }

  lemma MonthThirteenTag()
    ensures ListedDate("stable-v2026.13.1").Some? && ListedDate("stable-v2026.13.1").value.month == 13
  {
    var tag, g := "stable-v2026.13.1", Groups("2026", "13", "1");
    assert "stable-v" + g.year + "." + g.month + "." + g.day == tag;
    DottedFormat(tag, g);
    TwoDigits("13");
    assert tag[..8] == "stable-v";
    assert Listed(tag);
  }

  lemma InvalidTagBlocks(tags: set<string>, tag: string, today: Date, r: Result<Alpha, Failure>)
    requires tag in tags && ListedDate(tag).Some? && !Valid(ListedDate(tag).value) && AlphaOutcome(tags, today, r)
    ensures r == Err(InvalidDate)
  {
    assert HasInvalidDate(tags);
  }

  /** A month that does not exist: with this listed tag every alpha run fails. */
  lemma MonthThirteenBlocksAlphas(tags: set<string>, today: Date, r: Result<Alpha, Failure>)
    requires "stable-v2026.13.1" in tags && AlphaOutcome(tags, today, r)
    ensures r == Err(InvalidDate)
  {
    MonthThirteenTag();
    InvalidTagBlocks(tags, "stable-v2026.13.1", today, r);
  }
}
