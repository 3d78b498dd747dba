/**
 The ticks of the inference loop as relations between states, and what every run
 of ticks brings about: waiting rows get their context, idle contexts are archived.
 */
module InferenceTicks {
  import opened Basics
  import opened Listing
  import opened Vectors
  import opened MergePass
  import opened Tables
  import opened InferenceModel
  import opened InferenceSpec

  // ---- The merge pass ----

  /** A pass from storage call `at`: it lists, reads what the gate needs, and tries its candidates. */
  ghost predicate PassRuns(config: Config, env: Environment, a: View, at: nat, v: GateView, snaps: seq<Snap>,
                           b: View, to: nat)
  {
    && Snapshot(a.db.contexts, snaps)
    && GateReads(v, snaps, config, env, a.centroids, a.db.contexts, a.db.resources, at + 1)
    && (var (merged, next) := Ran(Candidates(v, snaps), env.fails, at + 1 + |snaps|);
        MergedTables(a.db, b.db, merged) && b.centroids == v.centroids - Removed(merged) && to == next)
  }

  ghost predicate MergeRun(config: Config, env: Environment, a: View, at: nat, b: View, to: nat) {
    if env.fails(at) then b == a && to == at + 1
    else exists v, snaps :: PassRuns(config, env, a, at, v, snaps, b, to)
  }

  // ---- Ticks ----

  ghost predicate BatchPart(config: Config, env: Environment, since: int, now: int,
                            a: View, at: nat, listed: seq<Id>, r: Result<seq<Assignment>, LoopError>, b: View, to: nat)
  {
    at < to && r != Err(TaskPanicked) && RecentRun(config, env, since, now, a, at, listed, r, b, to)
  }

  /** A batch over the recent events, then a merge pass, whatever became of the batch. */
  ghost predicate InferenceRun(config: Config, env: Environment, since: int, now: int, a: View, at: nat, b: View,
                               to: nat) {
    exists listed, r, mid, between: nat ::
      && BatchPart(config, env, since, now, a, at, listed, r, mid, between)
      && between <= to && MergeRun(config, env, mid, between, b, to)
  }

  /** Dormant contexts are archived; when there were any, the cache is cut down to the active ones. */
  ghost predicate ArchivalRun(env: Environment, cutoff: int, a: View, at: nat, b: View, to: nat) {
    && b.db == (if env.fails(at) then a.db else Apply(a.db, Stmt.ArchiveDormant(cutoff)))
    && b.centroids ==
         if ActiveIds(b.db.contexts) == ActiveIds(a.db.contexts) || env.fails(at + 1) then a.centroids
         else map c | c in a.centroids && c in ActiveIds(b.db.contexts) :: a.centroids[c]
  }

  /** A row arrives unassigned under a new id, or rows expire. */
  ghost predicate OthersRun(t: Tick, a: View, b: View)
    requires t.Ingested? || t.Retention?
  {
    b == match t
         case Ingested(event, row) =>
           if event !in a.db.log && row.workContext.None? then a.(db := Apply(a.db, AddEvent(event, row))) else a
         case Retention(cutoff) => a.(db := Apply(a.db, DeleteOlderThan(cutoff)))
  }

  /** One tick from storage call `at` up to `to`. */
  ghost predicate Ticked(config: Config, env: Environment, t: Tick, a: View, at: nat, b: View, to: nat) {
    && at <= to
    && match t
       case Inference(since, now) => InferenceRun(config, env, since, now, a, at, b, to)
       case Archival(cutoff) => ArchivalRun(env, cutoff, a, at, b, to)
       case _ => OthersRun(t, a, b)
  }

  lemma BatchThenPass(config: Config, env: Environment, since: int, now: int, a: View, at: nat, listed: seq<Id>,
                       r: Result<seq<Assignment>, LoopError>, mid: View, between: nat, b: View, to: nat)
    requires at < between <= to && r != Err(TaskPanicked)
    requires RecentRun(config, env, since, now, a, at, listed, r, mid, between)
    requires MergeRun(config, env, mid, between, b, to)
    ensures Ticked(config, env, Inference(since, now), a, at, b, to)
  {
    assert BatchPart(config, env, since, now, a, at, listed, r, mid, between);
  }

  lemma PassFails(config: Config, env: Environment, a: View, at: nat, b: View, to: nat)
    requires env.fails(at) && b == a && to == at + 1
    ensures MergeRun(config, env, a, at, b, to)
  {
  }

  lemma PassEnds(config: Config, env: Environment, a: View, at: nat, v: GateView, snaps: seq<Snap>, merged: seq<Pair>,
                 b: View, to: nat)
    requires !env.fails(at) && Snapshot(a.db.contexts, snaps)
    requires GateReads(v, snaps, config, env, a.centroids, a.db.contexts, a.db.resources, at + 1)
    requires (merged, to) == Ran(Candidates(v, snaps), env.fails, at + 1 + |snaps|)
    requires MergedTables(a.db, b.db, merged) && b.centroids == v.centroids - Removed(merged)
    ensures MergeRun(config, env, a, at, b, to)
  {
    assert PassRuns(config, env, a, at, v, snaps, b, to);
  }

  // ---- What one tick does ----

  ghost predicate RowsKept(before: map<Id, LogRow>, after: map<Id, LogRow>) {
    forall e :: e in before && e in after && before[e].workContext.Some? ==> after[e] == before[e]
  }

  /** A batch, failing or not, points unassigned rows at contexts and touches nothing else in the log. */
  lemma BatchKeepsRows(config: Config, env: Environment, since: int, now: int, a: View, at: nat, listed: seq<Id>,
                       r: Result<seq<Assignment>, LoopError>, b: View, to: nat)
    requires Ledger(a.db) && BatchPart(config, env, since, now, a, at, listed, r, b, to)
    ensures Ledger(b.db) && RowsKept(a.db.log, b.db.log) && b.db.log.Keys == a.db.log.Keys
  {
    RecentRunMeaning(config, env, since, now, a, at, listed, r, b, to);
  }

  lemma MergeKeepsRows(config: Config, env: Environment, a: View, at: nat, b: View, to: nat)
    requires Ledger(a.db) && MergeRun(config, env, a, at, b, to)
    ensures Ledger(b.db) && b.db.log == a.db.log
  {
    if !env.fails(at) {
      var v, snaps :| PassRuns(config, env, a, at, v, snaps, b, to);
    }
  }

  /** Every tick keeps the ledger and every assigned row that does not expire; only expiry removes rows. */
  lemma TickKeepsRows(config: Config, env: Environment, t: Tick, a: View, at: nat, b: View, to: nat)
    requires Ledger(a.db) && Ticked(config, env, t, a, at, b, to)
    ensures Ledger(b.db) && RowsKept(a.db.log, b.db.log)
    ensures !t.Retention? ==> a.db.log.Keys <= b.db.log.Keys
  {
    hide Ledger, InferenceRun, OthersRun;
    match t {
      case Inference(since, now) => InferenceKeepsRows(config, env, since, now, a, at, b, to);
      case Archival(cutoff) => LedgerStep(a.db, Stmt.ArchiveDormant(cutoff));
      case _ => OthersKeepRows(t, a, b);
    }
  }

  lemma InferenceKeepsRows(config: Config, env: Environment, since: int, now: int, a: View, at: nat, b: View, to: nat)
    requires Ledger(a.db) && InferenceRun(config, env, since, now, a, at, b, to)
    ensures Ledger(b.db) && RowsKept(a.db.log, b.db.log) && b.db.log.Keys == a.db.log.Keys
  {
    hide Ledger, RowsKept, BatchPart, MergeRun;
    var listed, r, mid, between: nat :|
      && BatchPart(config, env, since, now, a, at, listed, r, mid, between)
      && between <= to && MergeRun(config, env, mid, between, b, to);
    BatchKeepsRows(config, env, since, now, a, at, listed, r, mid, between);
    MergeKeepsRows(config, env, mid, between, b, to);
  }

  lemma OthersKeepRows(t: Tick, a: View, b: View)
    requires Ledger(a.db) && (t.Ingested? || t.Retention?) && OthersRun(t, a, b)
    ensures Ledger(b.db) && RowsKept(a.db.log, b.db.log)
    ensures t.Ingested? ==> a.db.log.Keys <= b.db.log.Keys
  {
    match t {
      case Ingested(event, row) =>
        if event !in a.db.log && row.workContext.None? { LedgerStep(a.db, AddEvent(event, row)); }
      case Retention(cutoff) => LedgerStep(a.db, DeleteOlderThan(cutoff));
    }
  }

  /**
   An inference tick without a failed call serves the oldest waiting rows: of the
   rows it lists exactly those that embed have a context afterwards.
   */
  lemma TickAssigns(config: Config, env: Environment, since: int, now: int, a: View, at: nat, b: View, to: nat)
    returns (listed: seq<Id>)
    requires Ledger(a.db) && Ticked(config, env, Inference(since, now), a, at, b, to) && Smooth(env.fails, at, to)
    ensures Lists(listed, Unassigned(a.db.log, since), OldestFirst(a.db.log), QUERY_LIMIT)
    ensures AssignsWhatEmbeds(config, env, a.db.log, b.db.log, listed) && OthersKept(a.db.log, b.db.log, listed)
  {
    hide Ledger, Lists, AssignsWhatEmbeds, OthersKept, BatchPart, MergeRun, Smooth, Unassigned, OldestFirst;
    var rows, r, mid, between: nat :|
      && BatchPart(config, env, since, now, a, at, rows, r, mid, between)
      && between <= to && MergeRun(config, env, mid, between, b, to);
    listed := rows;
    BatchPartServes(config, env, since, now, a, at, listed, r, mid, between, to);
    MergeKeepsRows(config, env, mid, between, b, to);
  }

  lemma BatchPartServes(config: Config, env: Environment, since: int, now: int, a: View, at: nat, listed: seq<Id>,
                        r: Result<seq<Assignment>, LoopError>, b: View, between: nat, to: nat)
    requires Ledger(a.db) && BatchPart(config, env, since, now, a, at, listed, r, b, between)
    requires between <= to && Smooth(env.fails, at, to)
    ensures Ledger(b.db) && Lists(listed, Unassigned(a.db.log, since), OldestFirst(a.db.log), QUERY_LIMIT)
    ensures AssignsWhatEmbeds(config, env, a.db.log, b.db.log, listed) && OthersKept(a.db.log, b.db.log, listed)
  {
    hide Ledger, Lists, AssignsWhatEmbeds, OthersKept, RecentRun, Smooth, Unassigned, OldestFirst, AssignedNow;
    SmoothJoin(env.fails, at, between, to);
    RecentRunMeaning(config, env, since, now, a, at, listed, r, b, between);
    SmoothBatchIsOk(config, env, since, now, a, at, listed, r, b, between);
    BatchKeepsRows(config, env, since, now, a, at, listed, r, b, between);
  }

  /** A batch reports a storage failure only when a call failed. */
  lemma SmoothBatchIsOk(config: Config, env: Environment, since: int, now: int, a: View, at: nat, listed: seq<Id>,
                        r: Result<seq<Assignment>, LoopError>, b: View, to: nat)
    requires Ledger(a.db) && BatchPart(config, env, since, now, a, at, listed, r, b, to) && Smooth(env.fails, at, to)
    ensures r.Ok? && !env.fails(at)
  {
    SmoothSplit(env.fails, at, to);
    if listed != [] {
      QueryMeaning(a.db.log, since, listed);
      if r == Err(StorageFailed) { StorageNeedsFailure(config, env, listed, now, a, at + 1, b, to); }
    }
  }

  lemma StorageNeedsFailure(config: Config, env: Environment, events: seq<Id>, now: int, a: View, at: nat, b: View,
                            to: nat)
    requires Ledger(a.db) && Queued(a.db.log, events)
    requires ListedRun(config, env, events, now, a, at, Err(StorageFailed), b, to)
    ensures at < to && exists n :: at <= n < to && env.fails(n)
  {
    if !env.fails(at) {
      var active, centroids :| IsListing(a.db.contexts, active)
        && AllRun(config, env, events, active, now, View(a.db, centroids), at + 1, Err(StorageFailed), b, to);
      StopNeedsFailure(config, env, events, active, now, View(a.db, centroids), at + 1, b, to);
    }
  }

  lemma StopNeedsFailure(config: Config, env: Environment, events: seq<Id>, active: seq<(Id, Context)>, now: int,
                         a: View, at: nat, b: View, to: nat)
    requires Ledger(a.db) && Queued(a.db.log, events)
    requires AllRun(config, env, events, active, now, a, at, Err(StorageFailed), b, to)
    ensures at < to && env.fails(to - 1)
  {
    var n: nat, rs, mid, between: nat :|
      StopsAt(config, env, events, active, now, a, at, n, rs, mid, between, StorageFailed, b, to);
    BatchSoFar(config, env, events, active, now, a, at, n, rs, mid, between);
  }

  /** Of the waiting rows exactly those that embed are assigned; with the embedder up none waits any more. */
  ghost predicate ServedAll(config: Config, env: Environment, before: map<Id, LogRow>, after: map<Id, LogRow>,
                            since: int) {
    && (forall e :: e in Unassigned(before, since) ==>
          e in after && (after[e].workContext.Some? <==> EventEmbeds(config, env, before[e])))
    && (EmbedderUp(env) ==> Unassigned(after, since) == {})
  }

  /** Fewer than 500 other waiting rows are at least as old. */
  ghost predicate InTime(log: map<Id, LogRow>, since: int, e: Id) {
    e in Unassigned(log, since) && |NoLater(Unassigned(log, since), OldestFirst(log), e)| < QUERY_LIMIT
  }

  /** At least 500 waiting rows are older. */
  ghost predicate Crowded(log: map<Id, LogRow>, since: int, e: Id) {
    e in Unassigned(log, since) && |Earlier(Unassigned(log, since), OldestFirst(log), e)| >= QUERY_LIMIT
  }

  /**
   Whether a waiting row is served depends on the rows before it, not on what
   becomes of them: a row in time gets a context exactly if it embeds, and a row
   behind 500 older ones gets none, even when none of those can ever be embedded.
   */
  lemma TickServesInTime(config: Config, env: Environment, since: int, now: int, a: View, at: nat, b: View, to: nat,
                         e: Id)
    requires Ledger(a.db) && Ticked(config, env, Inference(since, now), a, at, b, to) && Smooth(env.fails, at, to)
    ensures InTime(a.db.log, since, e) ==>
              e in b.db.log && (b.db.log[e].workContext.Some? <==> EventEmbeds(config, env, a.db.log[e]))
    ensures Crowded(a.db.log, since, e) ==> e in b.db.log && b.db.log[e] == a.db.log[e]
  {
    hide Ledger, AssignsWhatEmbeds, Ticked, Smooth, Lists, OldestFirst, EventEmbeds;
    var listed := TickAssigns(config, env, since, now, a, at, b, to);
    if e in Unassigned(a.db.log, since) {
      ListedByRank(listed, Unassigned(a.db.log, since), OldestFirst(a.db.log), QUERY_LIMIT, e);
      if e in listed { ListedIsServed(config, env, a.db.log, b.db.log, listed, e); }
    }
  }

  lemma ListedIsServed(config: Config, env: Environment, before: map<Id, LogRow>, after: map<Id, LogRow>,
                       listed: seq<Id>,
                       e: Id)
    requires AssignsWhatEmbeds(config, env, before, after, listed) && e in listed
    ensures e in before && e in after && (after[e].workContext.Some? <==> EventEmbeds(config, env, before[e]))
  {
    var k :| 0 <= k < |listed| && listed[k] == e;
  }

  ghost predicate NoneOlder(contexts: map<Id, Context>, cutoff: int) {
    forall c :: c in ActiveIds(contexts) ==> contexts[c].lastActiveAt >= cutoff
  }

  /** With fewer waiting rows than a query returns, none that embeds is left. */
  lemma TickLeavesNone(config: Config, env: Environment, since: int, now: int, a: View, at: nat, b: View, to: nat)
    requires Ledger(a.db) && Ticked(config, env, Inference(since, now), a, at, b, to) && Smooth(env.fails, at, to)
    requires |Unassigned(a.db.log, since)| < QUERY_LIMIT
    ensures ServedAll(config, env, a.db.log, b.db.log, since)
  {
    hide Ledger, Lists, AssignsWhatEmbeds, OthersKept, Ticked, Unassigned, OldestFirst, Smooth, EmbedderUp, ServedAll;
    var listed := TickAssigns(config, env, since, now, a, at, b, to);
    ShortListIsComplete(listed, Unassigned(a.db.log, since), OldestFirst(a.db.log), QUERY_LIMIT);
    InferenceAddsNoRows(config, env, since, now, a, at, b, to);
    ServedWhenAllListed(config, env, a.db.log, b.db.log, since, listed);
  }

  lemma ServedWhenAllListed(config: Config, env: Environment, before: map<Id, LogRow>, after: map<Id, LogRow>,
                            since: int,
                            listed: seq<Id>)
    requires AssignsWhatEmbeds(config, env, before, after, listed)
    requires forall e :: e in Unassigned(before, since) ==> e in listed
    requires after.Keys == before.Keys
    requires forall e :: e in before ==> after[e].timestamp == before[e].timestamp
    requires forall e :: e in before && after[e].workContext.None? ==> before[e].workContext.None?
    ensures ServedAll(config, env, before, after, since)
  {
    hide EventEmbeds, EmbedderUp;
    forall e | e in Unassigned(before, since)
      ensures e in after && (after[e].workContext.Some? <==> EventEmbeds(config, env, before[e]))
    {
      var k :| 0 <= k < |listed| && listed[k] == e;
    }
    if EmbedderUp(env) {
      forall e | e in after ensures e !in Unassigned(after, since) {
        if e in Unassigned(before, since) { UpMeansEmbeds(config, env, before[e]); }
      }
    }
  }

  lemma BatchProcesses(config: Config, env: Environment, since: int, now: int, a: View, at: nat, listed: seq<Id>,
                       r: Result<seq<Assignment>, LoopError>, b: View, to: nat)
    requires Ledger(a.db) && BatchPart(config, env, since, now, a, at, listed, r, b, to)
    ensures Processing(a.db, b.db) && Ledger(b.db)
  {
    RecentRunMeaning(config, env, since, now, a, at, listed, r, b, to);
  }

  lemma InferenceAddsNoRows(config: Config, env: Environment, since: int, now: int, a: View, at: nat, b: View, to: nat)
    requires Ledger(a.db) && Ticked(config, env, Inference(since, now), a, at, b, to)
    ensures b.db.log.Keys == a.db.log.Keys
    ensures forall e :: e in a.db.log ==> b.db.log[e].timestamp == a.db.log[e].timestamp
    ensures forall e :: e in a.db.log && b.db.log[e].workContext.None? ==> a.db.log[e].workContext.None?
  {
    hide Ledger, BatchPart, MergeRun, OthersKept, AssignedNow, AssignsWhatEmbeds, AllStoredIn, Unassigned, Lists,
         OldestFirst;
    var listed, r, mid, between: nat :|
      && BatchPart(config, env, since, now, a, at, listed, r, mid, between)
      && between <= to && MergeRun(config, env, mid, between, b, to);
    BatchProcesses(config, env, since, now, a, at, listed, r, mid, between);
    MergeKeepsRows(config, env, mid, between, b, to);
  }

  /** After an archival tick whose statement succeeded no active context is older than the cutoff. */
  lemma TickArchives(config: Config, env: Environment, cutoff: int, a: View, at: nat, b: View, to: nat)
    requires Ticked(config, env, Archival(cutoff), a, at, b, to) && !env.fails(at)
    ensures NoneOlder(b.db.contexts, cutoff)
    ensures b.db.contexts.Keys == a.db.contexts.Keys
    ensures forall c :: c in a.db.contexts && c !in ActiveIds(b.db.contexts) && c in ActiveIds(a.db.contexts) ==>
              b.db.contexts[c] == a.db.contexts[c].(status := Archived) && a.db.contexts[c].lastActiveAt < cutoff
  {
  }

  /** After a tick without a failed call and with the embedder up, active titles are distinct. */
  lemma TickLeavesUniqueTitles(config: Config, env: Environment, since: int, now: int, a: View, at: nat, b: View,
                               to: nat)
    requires Ledger(a.db) && Ticked(config, env, Inference(since, now), a, at, b, to)
    requires Smooth(env.fails, at, to) && EmbedderUp(env)
    ensures UniqueActiveTitles(b.db.contexts)
  {
    hide Ledger, BatchPart, MergeRun, Smooth, EmbedderUp, UniqueActiveTitles;
    var listed, r, mid, between: nat :|
      && BatchPart(config, env, since, now, a, at, listed, r, mid, between)
      && between <= to && MergeRun(config, env, mid, between, b, to);
    BatchKeepsRows(config, env, since, now, a, at, listed, r, mid, between);
    BatchMakesCalls(config, env, since, now, a, at, listed, r, mid, between);
    SmoothJoin(env.fails, at, between, to);
    PassLeavesUniqueTitles(config, env, mid, between, b, to);
  }

  lemma BatchMakesCalls(config: Config, env: Environment, since: int, now: int, a: View, at: nat, listed: seq<Id>,
                        r: Result<seq<Assignment>, LoopError>, b: View, to: nat)
    requires BatchPart(config, env, since, now, a, at, listed, r, b, to)
    ensures at < to
  {
  }

  lemma PassLeavesUniqueTitles(config: Config, env: Environment, a: View, at: nat, b: View, to: nat)
    requires MergeRun(config, env, a, at, b, to) && Smooth(env.fails, at, to) && EmbedderUp(env)
    ensures UniqueActiveTitles(b.db.contexts)
  {
    if !env.fails(at) {
      var v, snaps :| PassRuns(config, env, a, at, v, snaps, b, to);
      SmoothPassLeavesUniqueTitles(config, env, a, at, v, snaps, b, to);
    }
  }

  lemma AllTrue(n: nat) returns (commits: seq<bool>)
    ensures |commits| == n && AllCommitted(commits)
  {
    commits := seq(n, _ => true);
  }

  lemma PassMeaning(config: Config, env: Environment, a: View, at: nat, v: GateView, snaps: seq<Snap>, b: View, to: nat)
    requires PassRuns(config, env, a, at, v, snaps, b, to)
    ensures Snapshot(a.db.contexts, snaps) && Bootstrapped(a.centroids, v.centroids, a.db.contexts, env)
    ensures EmbedderUp(env) ==> AllCached(a.centroids, a.db.contexts, env)
    ensures var (merged, next) := Ran(Candidates(v, snaps), env.fails, at + 1 + |snaps|);
            MergedTables(a.db, b.db, merged) && to == next
  {
    hide Ran, Candidates, Snapshot, MergedTables;
  }

  lemma SmoothPassLeavesUniqueTitles(config: Config, env: Environment, a: View, at: nat, v: GateView, snaps: seq<Snap>,
                                     b: View, to: nat)
    requires PassRuns(config, env, a, at, v, snaps, b, to) && Smooth(env.fails, at, to) && EmbedderUp(env)
    ensures UniqueActiveTitles(b.db.contexts)
  {
    PassMeaning(config, env, a, at, v, snaps, b, to);
    hide UniqueActiveTitles, EmbedderUp, Snapshot, GateReads, Bootstrapped, AllCached, MergedTables, Ran, Replay,
         Candidates,
         Smooth, Removed, PassRuns, AllCommitted, ActiveIds;
    var cands, from := Candidates(v, snaps), at + 1 + |snaps|;
    var commits := AllTrue(|cands|);
    RanGrows(cands, env.fails, from);
    SmoothJoin(env.fails, at, from, to);
    SmoothRunMergesAll(cands, env.fails, from, commits);
    SnapshotMeaning(a.db.contexts, a.centroids, v.centroids, env, snaps);
    TitlesUniqueAfterPass(a.db.contexts, v, snaps, commits);
    MergesAreRemovals(a.db, b.db, Replay(cands, commits));
  }

  /** What a tick brings about when its calls succeed. */
  lemma TickMeaning(config: Config, env: Environment, t: Tick, a: View, at: nat, b: View, to: nat)
    requires Ledger(a.db) && Ticked(config, env, t, a, at, b, to)
    ensures t.Inference? && Smooth(env.fails, at, to) && EmbedderUp(env) ==> UniqueActiveTitles(b.db.contexts)
    ensures t.Inference? && Smooth(env.fails, at, to) && |Unassigned(a.db.log, t.since)| < QUERY_LIMIT ==>
              ServedAll(config, env, a.db.log, b.db.log, t.since)
    ensures t.Archival? && !env.fails(at) ==> NoneOlder(b.db.contexts, t.cutoff)
  {
    hide Ledger, Ticked, UniqueActiveTitles, ServedAll, NoneOlder, Unassigned, Smooth, EmbedderUp;
    match t {
      case Inference(since, now) =>
        if Smooth(env.fails, at, to) {
          if EmbedderUp(env) { TickLeavesUniqueTitles(config, env, since, now, a, at, b, to); }
          if |Unassigned(a.db.log, since)| < QUERY_LIMIT { TickLeavesNone(config, env, since, now, a, at, b, to); }
        }
      case Archival(cutoff) => if !env.fails(at) { TickArchives(config, env, cutoff, a, at, b, to); }
      case _ =>
    }
  }

  // ---- Runs of ticks ----

  /** The states between the ticks, and the numbers of the storage calls there. */
  ghost predicate LoopRuns(config: Config, env: Environment, schedule: seq<Tick>, trace: seq<View>, marks: seq<nat>) {
    && |trace| == |marks| == |schedule| + 1
    && Ledger(trace[0].db)
    && forall k :: 0 <= k < |schedule| ==>
        Ticked(config, env, schedule[k], trace[k], marks[k], trace[k + 1], marks[k + 1])
  }

  /** The trace of the first n ticks, which end in `b`. */
  ghost predicate TracedTo(config: Config, env: Environment, schedule: seq<Tick>, n: nat, trace: seq<View>,
                           marks: seq<nat>, b: View, to: nat)
  {
    && n <= |schedule| && |trace| == |marks| == n + 1 && trace[n] == b && marks[n] == to && Ledger(trace[0].db)
    && forall k :: 0 <= k < n ==> Ticked(config, env, schedule[k], trace[k], marks[k], trace[k + 1], marks[k + 1])
  }

  lemma TraceStarts(config: Config, env: Environment, schedule: seq<Tick>, a: View, at: nat)
    requires Ledger(a.db)
    ensures TracedTo(config, env, schedule, 0, [a], [at], a, at)
  {
  }

  lemma TraceGoesOn(config: Config, env: Environment, schedule: seq<Tick>, n: nat, trace: seq<View>, marks: seq<nat>,
                    a: View, at: nat, b: View, to: nat)
    requires n < |schedule| && TracedTo(config, env, schedule, n, trace, marks, a, at)
    requires Ticked(config, env, schedule[n], a, at, b, to)
    ensures TracedTo(config, env, schedule, n + 1, trace + [b], marks + [to], b, to)
  {
    hide Ticked, Ledger;
    var t, m := trace + [b], marks + [to];
    forall k | 0 <= k < n + 1 ensures Ticked(config, env, schedule[k], t[k], m[k], t[k + 1], m[k + 1]) {
      assert t[k] == trace[k] && m[k] == marks[k];
    }
  }

  lemma TraceEnds(config: Config, env: Environment, schedule: seq<Tick>, trace: seq<View>, marks: seq<nat>, b: View,
                  to: nat)
    requires TracedTo(config, env, schedule, |schedule|, trace, marks, b, to)
    ensures LoopRuns(config, env, schedule, trace, marks) && trace[|schedule|] == b && marks[|schedule|] == to
  {
  }

  /** The startup vote: only decorations change, and all as voted when no call failed. */
  ghost predicate VotedStart(env: Environment, a: View, at: nat, b: View, to: nat) {
    && b == a.(db := a.db.(contexts := b.db.contexts))
    && RetypedSome(env.typing, a.db.log, a.db.contexts, b.db.contexts)
    && (Smooth(env.fails, at, to) ==> RetypedAll(env.typing, a.db.log, a.db.contexts, b.db.contexts))
  }

  lemma VoteStarts(env: Environment, a: View, at: nat, b: View, to: nat)
    requires b == a.(db := a.db.(contexts := b.db.contexts))
    requires RetypedSome(env.typing, a.db.log, a.db.contexts, b.db.contexts)
    requires Smooth(env.fails, at, to) ==> RetypedAll(env.typing, a.db.log, a.db.contexts, b.db.contexts)
    ensures VotedStart(env, a, at, b, to)
  {
  }

  lemma {:induction false} RunKeepsLedger(config: Config, env: Environment, schedule: seq<Tick>, trace: seq<View>,
                                          marks: seq<nat>, k: nat)
    requires LoopRuns(config, env, schedule, trace, marks) && k <= |schedule|
    ensures Ledger(trace[k].db) && marks[0] <= marks[k]
    decreases k
  {
    hide Ledger, InferenceRun, ArchivalRun, OthersRun, RowsKept;
    if k == 0 {
    } else {
      RunKeepsLedger(config, env, schedule, trace, marks, k - 1);
      TickKeepsRows(config, env, schedule[k - 1], trace[k - 1], marks[k - 1], trace[k], marks[k]);
    }
  }

  /** A row that has a context keeps it until the row expires, whatever fails later. */
  lemma {:induction false} AssignedStays(config: Config, env: Environment, schedule: seq<Tick>, trace: seq<View>,
                                         marks: seq<nat>, j: nat, k: nat, e: Id)
    requires LoopRuns(config, env, schedule, trace, marks) && j <= k <= |schedule|
    requires e in trace[j].db.log && trace[j].db.log[e].workContext.Some?
    requires forall i :: j <= i < k ==> !schedule[i].Retention?
    ensures e in trace[k].db.log && trace[k].db.log[e].workContext == trace[j].db.log[e].workContext
    decreases k - j
  {
    if j == k {
    } else {
      RunKeepsLedger(config, env, schedule, trace, marks, k - 1);
      AssignedStays(config, env, schedule, trace, marks, j, k - 1, e);
      TickKeepsRows(config, env, schedule[k - 1], trace[k - 1], marks[k - 1], trace[k], marks[k]);
    }
  }

  /** Row `e` waits at tick j, an inference tick whose window covers it, in time for its query. */
  ghost predicate Covered(schedule: seq<Tick>, trace: seq<View>, j: nat, e: Id)
    requires |trace| == |schedule| + 1
  {
    && j < |schedule| && schedule[j].Inference?
    && InTime(trace[j].db.log, schedule[j].since, e)
  }

  /**
   Every covered row that embeds gets its context at that tick if none of the
   tick's calls fails, and has it at the end of the schedule whatever fails
   afterwards, unless rows expire.
   */
  lemma CoveredRowsAreAssigned(config: Config, env: Environment, schedule: seq<Tick>, trace: seq<View>, marks: seq<nat>,
                               j: nat, e: Id)
    requires LoopRuns(config, env, schedule, trace, marks) && Covered(schedule, trace, j, e)
    requires Smooth(env.fails, marks[j], marks[j + 1]) && EventEmbeds(config, env, trace[j].db.log[e])
    requires forall i :: j < i < |schedule| ==> !schedule[i].Retention?
    ensures e in trace[|schedule|].db.log && trace[|schedule|].db.log[e].workContext.Some?
  {
    RunKeepsLedger(config, env, schedule, trace, marks, j);
    var Inference(since, now) := schedule[j];
    TickServesInTime(config, env, since, now, trace[j], marks[j], trace[j + 1], marks[j + 1], e);
    AssignedStays(config, env, schedule, trace, marks, j + 1, |schedule|, e);
  }

  /** A row that arrives waits, as it came, until an inference tick or expiry. */
  lemma {:induction false} ArrivalsWait(config: Config, env: Environment, schedule: seq<Tick>, trace: seq<View>,
                                        marks: seq<nat>, i: nat, j: nat, e: Id)
    requires LoopRuns(config, env, schedule, trace, marks) && i < j <= |schedule|
    requires schedule[i].Ingested? && schedule[i].event == e && schedule[i].row.workContext.None?
    requires e !in trace[i].db.log
    requires forall k :: i < k < j ==> schedule[k].Ingested? || schedule[k].Archival?
    ensures e in trace[j].db.log && trace[j].db.log[e] == schedule[i].row
    decreases j
  {
    if j == i + 1 {
    } else {
      ArrivalsWait(config, env, schedule, trace, marks, i, j - 1, e);
    }
  }
}
