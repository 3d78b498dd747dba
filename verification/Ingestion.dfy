/** The ingestion service: truncate, exclude, flag, dedup, insert; one entry or a batch. */
module Ingestion {
  import opened Basics
  import opened Text

  const MAX_PREVIEW_LEN: nat := 500

  datatype Entry = Entry(
    id: Id,
    appName: Option<string>,
    resourceId: Option<string>,
    preview: Option<string>,
    contentHash: Option<string>,
    isSensitive: bool)

  datatype PrivacyFilter = PrivacyFilter(
    excludedApps: seq<string>,
    excludedUrlPatterns: seq<string>,
    sensitiveApps: seq<string>,
    sensitiveUrlPatterns: seq<string>,
    lower: Lowercase)

  // ---- Preview ----

  /** The bytes one character takes in UTF-8. */
  function Utf8Len(c: char): nat {
    if c < '\U{80}' then 1 else if c < '\U{800}' then 2 else if c < '\U{10000}' then 3 else 4
  }

  function ByteLen(s: string): (n: nat)
    ensures |s| <= n <= 4 * |s|
  {
    if s == [] then 0 else ByteLen(s[..|s| - 1]) + Utf8Len(s[|s| - 1])
  }

  /** The code compares the length in bytes, then keeps characters. */
  function TruncatePreview(preview: string): string {
    if ByteLen(preview) > MAX_PREVIEW_LEN then preview[..Min(MAX_PREVIEW_LEN, |preview|)] else preview
  }

  /** For every text the result is its first 500 characters: the byte test only skips no-ops. */
  lemma TruncationKeepsFirst500(preview: string)
    ensures TruncatePreview(preview) == preview[..Min(MAX_PREVIEW_LEN, |preview|)]
    ensures |TruncatePreview(preview)| <= MAX_PREVIEW_LEN
    ensures TruncatePreview(TruncatePreview(preview)) == TruncatePreview(preview)
  {
    assert ByteLen(preview) >= |preview|;
    assert preview[..|preview|] == preview;
  }

  function Truncated(e: Entry): Entry {
    match e.preview
    case None => e
    case Some(p) => e.(preview := Some(TruncatePreview(p)))
  }

  // ---- Privacy ----

  predicate MatchesAny(haystack: string, patterns: seq<string>, lower: Lowercase) {
    exists i :: 0 <= i < |patterns| && Contains(lower(haystack), lower(patterns[i]))
  }

  predicate SomeMatches(text: Option<string>, patterns: seq<string>, lower: Lowercase) {
    text.Some? && MatchesAny(text.value, patterns, lower)
  }

  predicate ShouldExclude(f: PrivacyFilter, e: Entry) {
    SomeMatches(e.appName, f.excludedApps, f.lower) || SomeMatches(e.resourceId, f.excludedUrlPatterns, f.lower)
  }

  predicate IsSensitiveMatch(f: PrivacyFilter, e: Entry) {
    SomeMatches(e.appName, f.sensitiveApps, f.lower) || SomeMatches(e.resourceId, f.sensitiveUrlPatterns, f.lower)
  }

  function Flagged(f: PrivacyFilter, e: Entry): Entry {
    if IsSensitiveMatch(f, e) then e.(isSensitive := true) else e
  }

  function Prepared(f: PrivacyFilter, e: Entry): Entry { Flagged(f, Truncated(e)) }

  /**
   Which list looks at which field: applications by the application lists,
   resources by the URL lists, exclusion and sensitivity each by their own; one
   match is enough, and case does not count.
   */
  lemma ListsLookAtTheirField(f: PrivacyFilter, e: Entry)
    ensures e.resourceId.None? ==> (ShouldExclude(f, e) <==> Hits(e.appName, f.excludedApps, f.lower))
    ensures e.appName.None? ==> (ShouldExclude(f, e) <==> Hits(e.resourceId, f.excludedUrlPatterns, f.lower))
    ensures e.resourceId.None? ==> (IsSensitiveMatch(f, e) <==> Hits(e.appName, f.sensitiveApps, f.lower))
    ensures e.appName.None? ==> (IsSensitiveMatch(f, e) <==> Hits(e.resourceId, f.sensitiveUrlPatterns, f.lower))
    ensures ShouldExclude(f, e) <==>
              ShouldExclude(f, e.(appName := None)) || ShouldExclude(f, e.(resourceId := None))
    ensures IsSensitiveMatch(f, e) <==>
              IsSensitiveMatch(f, e.(appName := None)) || IsSensitiveMatch(f, e.(resourceId := None))
  {
    HitsIff(e.appName, f.excludedApps, f.lower);
    HitsIff(e.resourceId, f.excludedUrlPatterns, f.lower);
    HitsIff(e.appName, f.sensitiveApps, f.lower);
    HitsIff(e.resourceId, f.sensitiveUrlPatterns, f.lower);
  }

  /** Some pattern, lowered, occurs in the lowered text. */
  ghost predicate Hits(text: Option<string>, patterns: seq<string>, lower: Lowercase) {
    text.Some? && exists p, front, back :: p in patterns && lower(text.value) == front + lower(p) + back
  }

  lemma HitsIff(text: Option<string>, patterns: seq<string>, lower: Lowercase)
    ensures SomeMatches(text, patterns, lower) <==> Hits(text, patterns, lower)
  {
    if text.Some? {
      var t := lower(text.value);
      if i :| 0 <= i < |patterns| && Contains(t, lower(patterns[i])) {
        ContainsIff(t, lower(patterns[i]));
        var front, back :| t == front + lower(patterns[i]) + back;
        assert patterns[i] in patterns;
      }
      if p, front, back :| p in patterns && t == front + lower(p) + back {
        ContainsIff(t, lower(p));
        var i :| 0 <= i < |patterns| && patterns[i] == p;
        assert Contains(t, lower(patterns[i]));
      }
    }
  }

  /**
   What is stored of an entry: the entry with its preview cut to 500 characters
   and its flag, which a match sets and nothing clears.
   */
  lemma StoredEntry(f: PrivacyFilter, e: Entry)
    ensures var p := Prepared(f, e);
            && p == e.(preview := p.preview, isSensitive := p.isSensitive)
            && (p.isSensitive <==> e.isSensitive || IsSensitiveMatch(f, e))
            && (p.preview.Some? <==> e.preview.Some?)
            && (e.preview.Some? ==> p.preview.value <= e.preview.value)
            && (e.preview.Some? ==> |p.preview.value| == if |e.preview.value| < 500 then |e.preview.value| else 500)
  {
    if e.preview.Some? { TruncationKeepsFirst500(e.preview.value); }
  }

  // ---- The log table ----

  predicate HasHash(log: seq<Entry>, hash: string) {
    exists i :: 0 <= i < |log| && log[i].contentHash == Some(hash)
  }

  predicate HasId(log: seq<Entry>, id: Id) {
    exists i :: 0 <= i < |log| && log[i].id == id
  }

  /** Some stored row has the entry's content hash; entries without a hash are never duplicates. */
  predicate Duplicate(log: seq<Entry>, e: Entry) {
    e.contentHash.Some? && HasHash(log, e.contentHash.value)
  }

  /** An entry that would be stored if the table takes it. */
  predicate Admissible(f: PrivacyFilter, log: seq<Entry>, e: Entry) {
    !ShouldExclude(f, Truncated(e)) && !Duplicate(log, e)
  }

  /** The log after one ingest. `up` says whether the storage calls it makes succeed. */
  function IngestOne(f: PrivacyFilter, log: seq<Entry>, e: Entry, up: bool): seq<Entry> {
    if up && Admissible(f, log, e) && !HasId(log, e.id) then log + [Prepared(f, e)] else log
  }

  /** What every stored row satisfies, and what holds between rows. */
  ghost predicate CleanLog(f: PrivacyFilter, log: seq<Entry>) {
    && (forall i :: 0 <= i < |log| ==>
          && !ShouldExclude(f, log[i])
          && (IsSensitiveMatch(f, log[i]) ==> log[i].isSensitive)
          && (log[i].preview.Some? ==> |log[i].preview.value| <= MAX_PREVIEW_LEN))
    && (forall i, j :: 0 <= i < j < |log| ==> log[i].id != log[j].id)
    && (forall i, j :: 0 <= i < j < |log| && log[i].contentHash.Some? ==> log[i].contentHash != log[j].contentHash)
  }

  lemma IngestKeepsLogClean(f: PrivacyFilter, log: seq<Entry>, e: Entry, up: bool)
    requires CleanLog(f, log)
    ensures CleanLog(f, IngestOne(f, log, e, up))
  {
    if e.preview.Some? { TruncationKeepsFirst500(e.preview.value); }
  }

  /** A second ingest of the same entry never adds a row: by id, whether or not it carries a hash. */
  lemma IngestIsIdempotent(f: PrivacyFilter, log: seq<Entry>, e: Entry, up: bool)
    ensures IngestOne(f, IngestOne(f, log, e, true), e, up) == IngestOne(f, log, e, true)
  {
    var once := IngestOne(f, log, e, true);
    if once != log {
      assert once[|log|].id == e.id;
    }
  }

  datatype StorageError = StorageError

  class ActivityIngestionService {
    const filter: PrivacyFilter
    var log: seq<Entry>

    constructor (filter: PrivacyFilter)
      ensures this.filter == filter && log == []
      ensures CleanLog(filter, log)
    {
      this.filter, log := filter, [];
    }

    /** INSERT; a second row with the same id is refused. */
    method Insert(e: Entry, up: bool) returns (ok: bool)
      modifies this
      ensures ok <==> up && !HasId(old(log), e.id)
      ensures log == if ok then old(log) + [e] else old(log)
    {
      ok := up && !HasId(log, e.id);
      if ok { log := log + [e]; }
    }

    /** One entry. The result is the id of the stored row, or nothing when excluded or a duplicate. */
    method Ingest(entry: Entry, up: bool) returns (r: Result<Option<Id>, StorageError>)
      modifies this
      ensures log == IngestOne(filter, old(log), entry, up)
      ensures r.Ok? && r.value.Some? ==> r.value.value == entry.id && log == old(log) + [Prepared(filter, entry)]
      ensures r.Ok? && r.value.None? ==> !Admissible(filter, old(log), entry)
      ensures r.Err? ==> log == old(log) && (!up || HasId(old(log), entry.id))
    {
      var e := Truncated(entry);
      if ShouldExclude(filter, e) {
        return Ok(None);
      }
      e := Flagged(filter, e);
      match e.contentHash {
        case Some(hash) =>
          if !up { return Err(StorageError); }
          if HasHash(log, hash) { return Ok(None); }
        case None =>
      }
      var ok := Insert(e, up);
      r := if ok then Ok(Some(e.id)) else Err(StorageError);
    }

    /** A batch: filter every entry against the log as it was, then insert all or nothing. */
    method IngestBatch(entries: seq<Entry>, up: bool) returns (r: Result<nat, StorageError>)
      modifies this
      ensures up && Insertable(old(log), Survivors(filter, old(log), entries)) ==>
                r == Ok(|Survivors(filter, old(log), entries)|)
                    && log == old(log) + Survivors(filter, old(log), entries)
      ensures r.Err? ==> log == old(log)
      ensures r.Ok? ==> log == old(log) + Survivors(filter, old(log), entries) && r.value == |log| - |old(log)|
      ensures up && !Insertable(old(log), Survivors(filter, old(log), entries)) ==> r.Err?
    {
      var toInsert: seq<Entry> := [];
      for i := 0 to |entries|
        invariant toInsert == Survivors(filter, log, entries[..i])
      {
        assert entries[..i + 1][..i] == entries[..i];
        var e := Truncated(entries[i]);
        if ShouldExclude(filter, e) {
          continue;
        }
        e := Flagged(filter, e);
        if e.contentHash.Some? {
          if !up { return Err(StorageError); }
          if HasHash(log, e.contentHash.value) {
            continue;
          }
        }
        toInsert := toInsert + [e];
      }
      assert entries[..|entries|] == entries;
      if toInsert == [] {
        return Ok(0);
      }
      r := InsertBatch(toInsert, up);
    }

    /** The transaction: rolled back as a whole when one row is refused. */
    method InsertBatch(rows: seq<Entry>, up: bool) returns (r: Result<nat, StorageError>)
      modifies this
      ensures up && Insertable(old(log), rows) ==> r == Ok(|rows|) && log == old(log) + rows
      ensures !(up && Insertable(old(log), rows)) ==> log == old(log) && (r.Err? || rows == [])
    {
      var before := log;
      var count := 0;
      for i := 0 to |rows|
        invariant log == before + rows[..i] && count == i
        invariant Insertable(before, rows[..i])
        invariant up || i == 0
      {
        assert rows[..i + 1] == rows[..i] + [rows[i]];
        var ok := Insert(rows[i], up);
        if !ok {
          if up { RefusedPrefix(before, rows, i); }
          log := before;
          return Err(StorageError);
        }
        InsertableSnoc(before, rows[..i], rows[i]);
        count := count + 1;
      }
      assert rows[..|rows|] == rows;
      r := Ok(count);
    }
  }

  /** No row repeats an id, within the batch or against the log. */
  ghost predicate Insertable(log: seq<Entry>, rows: seq<Entry>) {
    && (forall i, j :: 0 <= i < j < |rows| ==> rows[i].id != rows[j].id)
    && (forall i :: 0 <= i < |rows| ==> !HasId(log, rows[i].id))
  }

  lemma InsertableSnoc(log: seq<Entry>, rows: seq<Entry>, e: Entry)
    requires Insertable(log, rows) && !HasId(log + rows, e.id)
    ensures Insertable(log, rows + [e])
  {
    forall i | 0 <= i < |rows| ensures rows[i].id != e.id {
      assert (log + rows)[|log| + i] == rows[i];
    }
    forall k | 0 <= k < |log| ensures log[k].id != e.id {
      assert (log + rows)[k] == log[k];
    }
  }

  lemma RefusedPrefix(log: seq<Entry>, rows: seq<Entry>, n: nat)
    requires n < |rows| && HasId(log + rows[..n], rows[n].id)
    ensures !Insertable(log, rows)
  {
    var k :| 0 <= k < |log + rows[..n]| && (log + rows[..n])[k].id == rows[n].id;
    if k < |log| {
      assert log[k].id == rows[n].id;
    } else {
      assert rows[k - |log|].id == rows[n].id;
    }
  }

  /** The entries of a batch that pass the filters, prepared, in order. */
  function Survivors(f: PrivacyFilter, log: seq<Entry>, entries: seq<Entry>): seq<Entry>
    decreases |entries|
  {
    if entries == [] then []
    else
      var n := |entries| - 1;
      Survivors(f, log, entries[..n]) + if Admissible(f, log, entries[n]) then [Prepared(f, entries[n])] else []
  }

  /** Ingesting the entries one by one. */
  function IngestAll(f: PrivacyFilter, log: seq<Entry>, entries: seq<Entry>): seq<Entry>
    decreases |entries|
  {
    if entries == [] then log
    else IngestOne(f, IngestAll(f, log, entries[..|entries| - 1]), entries[|entries| - 1], true)
  }

  ghost predicate DistinctHashes(rows: seq<Entry>) {
    forall i, j :: 0 <= i < j < |rows| && rows[i].contentHash.Some? ==> rows[i].contentHash != rows[j].contentHash
  }

  /**
   A batch whose rows the table takes equals one-by-one ingestion exactly when
   its surviving entries have pairwise distinct hashes.
   */
  lemma {:induction false} BatchEqualsOneByOneIff(f: PrivacyFilter, log: seq<Entry>, entries: seq<Entry>)
    requires Insertable(log, Survivors(f, log, entries))
    ensures (IngestAll(f, log, entries) == log + Survivors(f, log, entries))
       <==> DistinctHashes(Survivors(f, log, entries))
    ensures |IngestAll(f, log, entries)| <= |log + Survivors(f, log, entries)|
    decreases |entries|
  {
    if entries == [] {
    } else {
      var n := |entries| - 1;
      var front, e := entries[..n], entries[n];
      var kept := Survivors(f, log, front);
      var all := Survivors(f, log, entries);
      assert Insertable(log, kept) by {
        assert forall i :: 0 <= i < |kept| ==> all[i] == kept[i];
      }
      BatchEqualsOneByOneIff(f, log, front);
      if Admissible(f, log, e) {
        assert all == kept + [Prepared(f, e)] && all[|kept|] == Prepared(f, e);
        OneMore(f, log, front, e);
      } else {
        NotAdmissibleLater(f, log, front, e);
        assert all == kept;
      }
    }
  }

  /** Whatever the filter: two entries with one hash, a batch of both against an empty log. */
  lemma SharedHashIsStoredTwice(f: PrivacyFilter)
    ensures var a := Entry("1", None, None, None, Some("h"), false);
            var b := a.(id := "2");
            && Survivors(f, [], [a, b]) == [a, b] && Insertable([], [a, b])
            && IngestAll(f, [], [a, b]) == [a]
  {
    var a := Entry("1", None, None, None, Some("h"), false);
    var b := a.(id := "2");
    assert [a, b][..1] == [a] && [a][..0] == [];
    assert Survivors(f, [], [a]) == [a] && IngestAll(f, [], [a]) == [a];
    assert [a][0].contentHash == b.contentHash;
  }

  lemma {:induction false} OneByOneOnlyAppends(f: PrivacyFilter, log: seq<Entry>, entries: seq<Entry>)
    ensures log <= IngestAll(f, log, entries)
    decreases |entries|
  {
    if entries == [] {
    } else {
      OneByOneOnlyAppends(f, log, entries[..|entries| - 1]);
    }
  }

  lemma NotAdmissibleLater(f: PrivacyFilter, log: seq<Entry>, front: seq<Entry>, e: Entry)
    requires !Admissible(f, log, e)
    ensures !Admissible(f, IngestAll(f, log, front), e)
  {
    OneByOneOnlyAppends(f, log, front);
    var later := IngestAll(f, log, front);
    if Duplicate(log, e) {
      var i :| 0 <= i < |log| && log[i].contentHash == Some(e.contentHash.value);
      assert later[i] == log[i];
    }
  }

  /** The last surviving entry: stored by both, or a duplicate only the one-by-one form sees. */
  lemma OneMore(f: PrivacyFilter, log: seq<Entry>, front: seq<Entry>, e: Entry)
    requires Admissible(f, log, e)
    requires var kept := Survivors(f, log, front); Insertable(log, kept + [Prepared(f, e)])
    requires var kept := Survivors(f, log, front); IngestAll(f, log, front) == log + kept <==> DistinctHashes(kept)
    requires |IngestAll(f, log, front)| <= |log + Survivors(f, log, front)|
    ensures var kept := Survivors(f, log, front);
            var one := IngestOne(f, IngestAll(f, log, front), e, true);
            |one| <= |log + kept| + 1
            && (one == log + (kept + [Prepared(f, e)]) <==> DistinctHashes(kept + [Prepared(f, e)]))
  {
    var kept := Survivors(f, log, front);
    var p := Prepared(f, e);
    var before := IngestAll(f, log, front);
    var one := IngestOne(f, before, e, true);
    assert forall i :: 0 <= i < |kept| ==> (kept + [p])[i] == kept[i];
    if before == log + kept {
      StoredUnlessRepeated(f, log, kept, e);
      assert log + (kept + [p]) == (log + kept) + [p];
    } else {
      StaysDifferent(before, log + kept, one, p);
      assert log + (kept + [p]) == (log + kept) + [p];
    }
  }

  lemma StaysDifferent(before: seq<Entry>, target: seq<Entry>, one: seq<Entry>, p: Entry)
    requires before != target && |before| <= |target| && (one == before || one == before + [p])
    ensures one != target + [p]
  {
    assert (before + [p])[..|before|] == before && (target + [p])[..|target|] == target;
  }

  lemma StoredUnlessRepeated(f: PrivacyFilter, log: seq<Entry>, kept: seq<Entry>, e: Entry)
    requires Admissible(f, log, e) && Insertable(log, kept + [Prepared(f, e)]) && DistinctHashes(kept)
    ensures var p := Prepared(f, e);
            IngestOne(f, log + kept, e, true) == (if DistinctHashes(kept + [p]) then log + kept + [p] else log + kept)
  {
    var p, now := Prepared(f, e), log + kept;
    forall k | 0 <= k < |now| ensures now[k].id != e.id {
      assert (kept + [p])[|kept|] == p;
      if k >= |log| { assert now[k] == (kept + [p])[k - |log|]; }
    }
    if Duplicate(now, e) {
      var k :| 0 <= k < |now| && now[k].contentHash == e.contentHash;
      assert k >= |log|;
      assert (kept + [p])[k - |log|].contentHash == (kept + [p])[|kept|].contentHash;
    } else {
      forall i | 0 <= i < |kept| && kept[i].contentHash.Some? ensures kept[i].contentHash != p.contentHash {
        assert now[|log| + i] == kept[i];
      }
    }
  }
}
