/**
 What the inference engine computes with, and what its methods are stated by:
 the configuration, the functions it calls out to, and relations between tables.
 */
module InferenceModel {
  import opened Basics
  import opened Text
  import opened Listing
  import opened Vectors
  import opened LinkRows
  import opened CoAccess
  import opened MergePass
  import opened Scoring
  import opened Tables
  import opened TypeVote
  import MergeOutcome

  datatype Config = Config(
    assignmentThreshold: real,
    mergeThreshold: real,
    mergeResourceOverlapMin: real,
    centroidLearningRate: real,
    weights: Weights)

  /** What the engine calls and this model does not look into. */
  datatype Environment = Environment(
    embedEvent: LogRow -> Option<Vec>,
    embedContext: Context -> Option<Vec>,
    temporal: Context -> real,
    inferTitle: LogRow -> string,
    newDecor: LogRow -> Decor,
    enrich: (Context, set<Id>) -> Decor,
    typing: Typing,
    confidence: (int, real, nat) -> real,
    lower: Lowercase,
    sqrt: real -> real,
    fails: Faults)

  datatype Outcome = Assigned(id: Id, isNew: bool, score: real) | Failed | Panicked

  datatype Assignment = Assignment(event: Id, id: Id)

  datatype Tick =
    | Inference(since: int, now: int)
    | Archival(cutoff: int)
    | Ingested(event: Id, row: LogRow)
    | Retention(cutoff: int)

  function ActiveIds(contexts: map<Id, Context>): set<Id> {
    set c | c in contexts && contexts[c].status == Active
  }

  ghost predicate UniqueActiveTitles(contexts: map<Id, Context>) {
    forall c, d :: c in ActiveIds(contexts) && d in ActiveIds(contexts) && c != d ==>
        contexts[c].title != contexts[d].title
  }

  /** The effect that assigning events may have before the log row is written. */
  ghost predicate Assigning(a: Db, b: Db) {
    && (Ledger(a) ==> Ledger(b))
    && (KeyUnique(a.resources) ==> KeyUnique(b.resources))
    && b.log == a.log && b.actions == a.actions && b.merges == a.merges
    && a.contexts.Keys <= b.contexts.Keys && a.issued <= b.issued
    && (forall c :: c in a.contexts ==>
          b.contexts[c].status == a.contexts[c].status && b.contexts[c].title == a.contexts[c].title)
    && (forall c :: c in b.contexts && c !in a.contexts ==> b.contexts[c].status == Active)
  }

  /** The same contexts, with other decorations at most. */
  ghost predicate Redecorated(a: map<Id, Context>, b: map<Id, Context>) {
    b.Keys == a.Keys && forall c :: c in b ==> b[c] == a[c].(decor := b[c].decor)
  }

  /** Only the row of `id` may differ, and only in its confidence and decorations. */
  ghost predicate Refreshed(a: map<Id, Context>, b: map<Id, Context>, id: Id) {
    && b.Keys == a.Keys
    && (forall c :: c in a && c != id ==> b[c] == a[c])
    && (id in a ==> b[id] == a[id].(confidence := b[id].confidence, decor := b[id].decor))
  }

  lemma ReassessedIsRefreshed(a: map<Id, Context>, b: map<Id, Context>, id: Id)
    requires b == a || (id in a && id in b && b == a[id := a[id].(confidence := b[id].confidence)])
    ensures Refreshed(a, b, id)
  {
  }

  lemma RefreshedTrans(a: map<Id, Context>, b: map<Id, Context>, c: map<Id, Context>, id: Id)
    requires Refreshed(a, b, id) && Refreshed(b, c, id)
    ensures Refreshed(a, c, id)
  {
  }

  /** The time an event adds: its own duration, or the gap since the context was last seen, at most half an hour. */
  function Elapsed(event: LogRow, seen: Context): int {
    match event.durationSecs
    case Some(explicit) => explicit
    case None => Min(Max(event.timestamp - seen.lastActiveAt, 0), 30 * 60)
  }

  /** A duration the event carries counts as it is; otherwise the gap, never negative and never over 1800 seconds. */
  lemma ElapsedMeaning(event: LogRow, seen: Context)
    ensures event.durationSecs.Some? ==> event.durationSecs == Some(Elapsed(event, seen))
    ensures event.durationSecs.None? ==>
              var gap, d := event.timestamp - seen.lastActiveAt, Elapsed(event, seen);
              0 <= d <= 1800 && (d == gap || (gap < 0 && d == 0) || (gap > 1800 && d == 1800))
  {
  }

  /** The row of a context created for an event. */
  function NewContext(env: Environment, event: LogRow, now: int): Context {
    var duration := match event.durationSecs case Some(d) => d case None => 0;
    Context(env.inferTitle(event), Active, 1, duration, now, 0.3, env.newDecor(event))
  }

  /** A new context has the event's title and its own duration if it has one, counts one event, and starts at 0.3. */
  lemma FreshRow(env: Environment, event: LogRow, now: int)
    ensures var row := NewContext(env, event, now);
            && row.title == env.inferTitle(event) && row.decor == env.newDecor(event)
            && row.status.Active? && row.eventCount == 1 && row.lastActiveAt == now && row.confidence == 0.3
            && (event.durationSecs.Some? ==> event.durationSecs == Some(row.durationSecs))
            && (event.durationSecs.None? ==> row.durationSecs == 0)
  {
  }

  /** What assigning an event to a listed context does to the rows. */
  ghost predicate Reused(a: map<Id, Context>, b: map<Id, Context>, event: LogRow, chosen: (Id, Context), now: int) {
    chosen.0 in a && Refreshed(a[chosen.0 := Counted(a[chosen.0], now, Elapsed(event, chosen.1))], b, chosen.0)
  }

  /** The embedder answers for every text. */
  ghost predicate EmbedderUp(env: Environment) {
    (forall e :: env.embedEvent(e).Some?) && (forall c :: env.embedContext(c).Some?)
  }

  /** The event is embedded, unless the semantic weight makes that unnecessary. */
  ghost predicate EventEmbeds(config: Config, env: Environment, event: LogRow) {
    config.weights.semantic > 0.0 ==> env.embedEvent(event).Some?
  }

  lemma UpMeansEmbeds(config: Config, env: Environment, event: LogRow)
    ensures EmbedderUp(env) ==> EventEmbeds(config, env, event)
  {
  }

  /** Every active context has a centroid, or its text embeds. */
  ghost predicate AllCached(centroids: map<Id, Vec>, contexts: map<Id, Context>, env: Environment) {
    forall c :: c in ActiveIds(contexts) ==> c in centroids || env.embedContext(contexts[c]).Some?
  }

  /** The cache after the missing centroids of active contexts were embedded. */
  ghost predicate Bootstrapped(before: map<Id, Vec>, after: map<Id, Vec>, contexts: map<Id, Context>,
                               env: Environment) {
    && (forall c :: c in before ==> c in after && after[c] == before[c])
    && (forall c :: c in after && c !in before ==>
          c in ActiveIds(contexts) && env.embedContext(contexts[c]) == Some(after[c]))
    && (forall c :: c in ActiveIds(contexts) && env.embedContext(contexts[c]).Some? ==> c in after)
  }

  /** The first i listed contexts have been embedded where needed; `clean` says whether each has a centroid now. */
  ghost predicate Embedding(env: Environment, contexts: map<Id, Context>, before: map<Id, Vec>, after: map<Id, Vec>,
                            active: seq<(Id, Context)>, i: nat, clean: bool)
  {
    && IsListing(contexts, active)
    && (forall c :: c in before ==> c in after && after[c] == before[c])
    && (forall c :: c in after && c !in before ==>
          c in ActiveIds(contexts) && env.embedContext(contexts[c]) == Some(after[c]))
    && (forall k :: i <= k < |active| ==> (active[k].0 in after <==> active[k].0 in before))
    && (forall k :: 0 <= k < i && k < |active| && env.embedContext(active[k].1).Some? ==> active[k].0 in after)
    && (clean <==> forall k :: 0 <= k < i && k < |active| ==>
        active[k].0 in before || env.embedContext(active[k].1).Some?)
  }

  lemma EmbeddingStarts(env: Environment, contexts: map<Id, Context>, before: map<Id, Vec>, active: seq<(Id, Context)>)
    requires IsListing(contexts, active)
    ensures Embedding(env, contexts, before, before, active, 0, true)
  {
  }

  /** One listed context: cached already, embedded now, or its text does not embed. */
  lemma EmbeddingGoesOn(env: Environment, contexts: map<Id, Context>, before: map<Id, Vec>, after: map<Id, Vec>,
                        active: seq<(Id, Context)>, i: nat, clean: bool)
    requires i < |active| && Embedding(env, contexts, before, after, active, i, clean)
    ensures var (id, ctx) := active[i];
            var vec := env.embedContext(ctx);
            Embedding(env, contexts, before, if id !in after && vec.Some? then after[id := vec.value] else after,
                      active, i + 1, clean && (id in after || vec.Some?))
  {
  }

  lemma EmbeddingDone(env: Environment, contexts: map<Id, Context>, before: map<Id, Vec>, after: map<Id, Vec>,
                      active: seq<(Id, Context)>, clean: bool)
    requires Embedding(env, contexts, before, after, active, |active|, clean)
    ensures Bootstrapped(before, after, contexts, env) && (clean <==> AllCached(before, contexts, env))
  {
    forall c | c in ActiveIds(contexts)
      ensures exists k :: 0 <= k < |active| && active[k].0 == c && active[k].1 == contexts[c]
    {
      var k :| 0 <= k < |active| && active[k].0 == c;
      assert active[k].1 == contexts[c];
    }
  }

  /** What a merge pass consults: the configuration, the cache, and the resources as read k returned them. */
  ghost predicate GateReads(v: GateView, snaps: seq<Snap>, config: Config, env: Environment, centroids: map<Id, Vec>,
                            contexts: map<Id, Context>, resources: set<Row<Relevance>>, firstRead: nat)
  {
    && v.mergeThreshold == config.mergeThreshold && v.overlapMin == config.mergeResourceOverlapMin && v.sqrt == env.sqrt
    && Bootstrapped(centroids, v.centroids, contexts, env)
    && (forall k :: 0 <= k < |snaps| ==>
          ResourcesOf(v, snaps[k].id) == if env.fails(firstRead + k) then {} else Items(resources, snaps[k].id))
  }

  lemma ViewIsRead(v: GateView, active: seq<(Id, Context)>, s: seq<Snap>, env: Environment,
                   resources: set<Row<Relevance>>, first: nat)
    requires |s| == |active| && forall k :: 0 <= k < |s| ==> s[k].id == active[k].0
    requires forall k :: 0 <= k < |active| ==>
               ResourcesOf(v, active[k].0) == if env.fails(first + k) then {} else Items(resources, active[k].0)
    ensures forall k :: 0 <= k < |s| ==>
              ResourcesOf(v, s[k].id) == if env.fails(first + k) then {} else Items(resources, s[k].id)
  {
    forall k | 0 <= k < |s|
      ensures ResourcesOf(v, s[k].id) == if env.fails(first + k) then {} else Items(resources, s[k].id)
    {
      assert s[k].id == active[k].0;
    }
  }

  /** Rows outside the listed events are as they were. */
  ghost predicate OthersKept(before: map<Id, LogRow>, now: map<Id, LogRow>, events: seq<Id>) {
    forall e :: e in before && e !in events ==> e in now && now[e] == before[e]
  }

  lemma OthersStayKept(start: map<Id, LogRow>, a: Db, b: Db, events: seq<Id>, n: nat, r: Outcome)
    requires n < |events| && OthersKept(start, a.log, events) && Turn(a, b, events[n], r)
    ensures OthersKept(start, b.log, events)
  {
  }

  /** A pass without a merge leaves the link tables alone. */
  lemma NoMergeNoChange(a: Db, b: Db, merged: seq<Pair>)
    requires MergedTables(a, b, merged)
    ensures a.merges <= b.merges
    ensures b.owed == a.owed
    ensures b.merges == a.merges ==> b.resources == a.resources && b.edges == a.edges
  {
  }

  /** The first i listed rows are done; the others are as they were read. */
  ghost predicate Retyping(ty: Typing, log: map<Id, LogRow>, a: map<Id, Context>, b: map<Id, Context>,
                           active: seq<(Id, Context)>, i: nat)
  {
    && b.Keys == a.Keys
    && (forall k :: 0 <= k < |active| ==>
          active[k].0 in a && active[k].1 == a[active[k].0] && active[k].1.status == Active)
    && (forall j, k :: 0 <= j < k < |active| ==> active[j].0 != active[k].0)
    && (forall k :: 0 <= k < i && k < |active| ==>
          Reclassified(ty, log, active[k].0, active[k].1, b[active[k].0]))
    && (forall k :: i <= k < |active| ==> b[active[k].0] == active[k].1)
    && (forall c :: c in b && !Listed(active, c) ==> b[c] == a[c])
    && (forall c :: c in b ==> b[c] == a[c] || Reclassified(ty, log, c, a[c], b[c]))
  }

  predicate Listed(active: seq<(Id, Context)>, c: Id) { exists k :: 0 <= k < |active| && active[k].0 == c }

  /** Some rows are retyped by vote, and nothing else has changed. */
  ghost predicate RetypedSome(ty: Typing, log: map<Id, LogRow>, a: map<Id, Context>, b: map<Id, Context>) {
    && Redecorated(a, b) && ActiveIds(b) == ActiveIds(a)
    && forall c :: c in b ==> b[c] == a[c] || Reclassified(ty, log, c, a[c], b[c])
  }

  ghost predicate RetypedAll(ty: Typing, log: map<Id, LogRow>, a: map<Id, Context>, b: map<Id, Context>) {
    b.Keys == a.Keys && forall c :: c in b ==> Reclassified(ty, log, c, a[c], b[c])
  }

  lemma RetypingStarts(ty: Typing, log: map<Id, LogRow>, a: map<Id, Context>, active: seq<(Id, Context)>)
    ensures IsListing(a, active) ==> Retyping(ty, log, a, a, active, 0)
    ensures RetypedSome(ty, log, a, a)
  {
  }

  lemma RetypingNext(ty: Typing, log: map<Id, LogRow>, a: map<Id, Context>, b: map<Id, Context>,
                     active: seq<(Id, Context)>, i: nat)
    requires i < |active| && Retyping(ty, log, a, b, active, i)
    ensures active[i].0 in b && b[active[i].0] == active[i].1 && active[i].1.status == Active
  {
  }

  lemma OnlyDecorations(ty: Typing, log: map<Id, LogRow>, id: Id, was: Context, now: Context)
    requires Reclassified(ty, log, id, was, now)
    ensures now == was.(decor := now.decor)
  {
  }

  /** One listed row is put to the vote; without the write the rows are as good as before. */
  lemma RetypedOne(ty: Typing, log: map<Id, LogRow>, a: map<Id, Context>, b: map<Id, Context>, now: map<Id, Context>,
                   active: seq<(Id, Context)>, i: nat)
    requires i < |active| && Retyping(ty, log, a, b, active, i)
    requires active[i].0 in now && now == b[active[i].0 := now[active[i].0]]
    requires now == b || Reclassified(ty, log, active[i].0, active[i].1, now[active[i].0])
    ensures Reclassified(ty, log, active[i].0, active[i].1, now[active[i].0]) ==>
              Retyping(ty, log, a, now, active, i + 1)
    ensures RetypedSome(ty, log, a, now)
  {
    hide Reclassified;
    assert Listed(active, active[i].0);
    forall c | c in now && Reclassified(ty, log, c, a[c], now[c]) ensures now[c] == a[c].(decor := now[c].decor) {
      OnlyDecorations(ty, log, c, a[c], now[c]);
    }
  }

  lemma RetypingDone(ty: Typing, log: map<Id, LogRow>, a: map<Id, Context>, b: map<Id, Context>,
                     active: seq<(Id, Context)>)
    requires Retyping(ty, log, a, b, active, |active|) && IsListing(a, active)
    ensures RetypedAll(ty, log, a, b)
  {
    forall c | c in b ensures Reclassified(ty, log, c, a[c], b[c]) {
      if c in ActiveIds(a) {
        var k :| 0 <= k < |active| && active[k].0 == c;
      }
    }
  }

  /** No row expires during the schedule. */
  ghost predicate NoExpiry(schedule: seq<Tick>) {
    forall t :: t in schedule ==> !t.Retention?
  }

  /** Nothing is owed to any id. */
  ghost predicate Settled(db: Db) {
    forall c :: Owed(db, c) == 0
  }

  /**
   The books are kept: nothing is owed that was not owed before, and the links
   and edges are those that the new accesses lead to.
   */
  ghost predicate Accounted(a: Db, x: seq<Access>, b: Db, y: seq<Access>) {
    SameOwed(a, b) && Grown(Graph(a.edges, a.resources), x, Graph(b.edges, b.resources), y)
  }

  lemma NothingToAccount(db: Db, x: seq<Access>)
    requires Ledger(db)
    ensures Accounted(db, x, db, x)
  {
    NotGrown(Graph(db.edges, db.resources), x);
  }

  lemma AccountedTrans(a: Db, x: seq<Access>, b: Db, y: seq<Access>, c: Db, z: seq<Access>)
    ensures Accounted(a, x, b, y) && Accounted(b, y, c, z) ==> Accounted(a, x, c, z)
  {
    if Accounted(a, x, b, y) && Accounted(b, y, c, z) {
      LinksGrow(a, x, b, y, c, z);
    }
  }

  lemma LinksGrow(a: Db, x: seq<Access>, b: Db, y: seq<Access>, c: Db, z: seq<Access>)
    ensures var (g, h, i) := (Graph(a.edges, a.resources), Graph(b.edges, b.resources), Graph(c.edges, c.resources));
            Grown(g, x, h, y) && Grown(h, y, i, z) ==> Grown(g, x, i, z)
  {
    var (g, h, i) := (Graph(a.edges, a.resources), Graph(b.edges, b.resources), Graph(c.edges, c.resources));
    if Grown(g, x, h, y) && Grown(h, y, i, z) { GrownTrans(g, x, h, y, i, z); }
  }

  lemma GrownMeshed(a: Db, x: seq<Access>, b: Db, y: seq<Access>)
    ensures var (g, h) := (Graph(a.edges, a.resources), Graph(b.edges, b.resources));
            Grown(g, x, h, y) && Meshed(g) ==> Meshed(h)
  {
    var (g, h) := (Graph(a.edges, a.resources), Graph(b.edges, b.resources));
    if Grown(g, x, h, y) && Meshed(g) { GrownKeepsMesh(g, x, h, y); }
  }

  lemma AccountedMesh(a: Db, x: seq<Access>, b: Db, y: seq<Access>)
    requires Accounted(a, x, b, y)
    ensures Meshed(Graph(a.edges, a.resources)) ==> Meshed(Graph(b.edges, b.resources))
  {
    GrownMeshed(a, x, b, y);
  }

  lemma EqualOwed(a: Db, b: Db)
    ensures a.owed == b.owed ==> SameOwed(a, b)
  {
  }

  lemma SameOwedTrans(a: Db, b: Db, c: Db)
    ensures SameOwed(a, b) && SameOwed(b, c) ==> SameOwed(a, c)
  {
  }

  /** Owing nothing before and the same after makes every count exact. */
  lemma SettledStays(a: Db, b: Db)
    requires Ledger(b)
    ensures Settled(a) && SameOwed(a, b) ==> CountsAgree(b)
  {
  }

  lemma NothingArchived(before: map<Id, Context>, after: map<Id, Context>, cutoff: int)
    requires after == map c | c in before :: Dormant(before[c], cutoff)
    requires |ActiveIds(before) - ActiveIds(after)| == 0
    ensures ActiveIds(after) == ActiveIds(before)
  {
    assert ActiveIds(before) - ActiveIds(after) == {};
  }

  /** Every active context once, as the pass reads it. */
  ghost predicate Snapshot(contexts: map<Id, Context>, s: seq<Snap>) {
    && DistinctIds(s)
    && (forall k :: 0 <= k < |s| ==> SnapOf(contexts, s[k]))
    && (forall c :: c in ActiveIds(contexts) ==> exists k :: 0 <= k < |s| && s[k].id == c)
  }

  lemma ListingIsSnapshot(contexts: map<Id, Context>, active: seq<(Id, Context)>, s: seq<Snap>)
    requires IsListing(contexts, active) && |s| == |active|
    requires forall k :: 0 <= k < |s| ==> s[k] == Snap(active[k].0, active[k].1.title, active[k].1.eventCount)
    ensures Snapshot(contexts, s)
  {
    forall c | c in ActiveIds(contexts) ensures exists k :: 0 <= k < |s| && s[k].id == c {
      var k :| 0 <= k < |active| && active[k].0 == c;
      assert s[k].id == c;
    }
  }

  lemma SnapshotMeaning(contexts: map<Id, Context>, before: map<Id, Vec>, after: map<Id, Vec>, env: Environment,
                        s: seq<Snap>)
    requires Snapshot(contexts, s) && Bootstrapped(before, after, contexts, env)
    ensures DistinctIds(s)
    ensures AllCached(before, contexts, env) ==> forall k :: 0 <= k < |s| ==> s[k].id in after
    ensures before.Keys <= ActiveIds(contexts) ==> after.Keys <= ActiveIds(contexts)
  {
    forall k | 0 <= k < |s| ensures s[k].id in ActiveIds(contexts) {
      assert SnapOf(contexts, s[k]);
    }
  }

  lemma MergesAreRemovals(a: Db, b: Db, merged: seq<Pair>)
    requires MergedTables(a, b, merged)
    ensures b.contexts == a.contexts - Removed(merged)
              && ActiveIds(b.contexts) == ActiveIds(a.contexts) - Removed(merged)
  {
  }

  lemma TitlesUniqueAfterPass(contexts: map<Id, Context>, v: GateView, s: seq<Snap>, commits: seq<bool>)
    requires Snapshot(contexts, s) && |commits| == |Candidates(v, s)|
    requires AllCommitted(commits)
    requires forall k :: 0 <= k < |s| ==> s[k].id in v.centroids
    ensures UniqueActiveTitles(contexts - Removed(Replay(Candidates(v, s), commits)))
  {
    var after := contexts - Removed(Replay(Candidates(v, s), commits));
    MergeOutcome.TitlesBecomeUnique(v, s, commits);
    forall c, d | c in ActiveIds(after) && d in ActiveIds(after) && c != d ensures after[c].title != after[d].title {
      assert c in ActiveIds(contexts) && d in ActiveIds(contexts);
      var i :| 0 <= i < |s| && s[i].id == c;
      var j :| 0 <= j < |s| && s[j].id == d;
      assert SnapOf(contexts, s[i]) && SnapOf(contexts, s[j]);
    }
  }

  /** The merge list after the first n candidates. */
  ghost predicate Replayed(cands: seq<Pair>, n: nat, commits: seq<bool>, merged: seq<Pair>) {
    n <= |cands| && |commits| == n && merged == Replay(cands[..n], commits)
  }

  lemma ReplayOneMore(cands: seq<Pair>, n: nat, commits: seq<bool>, merged: seq<Pair>, committed: bool)
    requires n < |cands| && Replayed(cands, n, commits, merged)
    ensures var gone := Removed(merged);
            Replayed(cands, n + 1, commits + [committed],
              if cands[n].keep in gone || cands[n].remove in gone || !committed then merged else merged + [cands[n]])
  {
    assert cands[..n + 1][..n] == cands[..n] && (commits + [committed])[..n] == commits;
  }

  lemma OneMoreCommitted(commits: seq<bool>, ok: bool)
    ensures AllCommitted(commits + [ok]) <==> AllCommitted(commits) && ok
  {
    assert (commits + [ok])[|commits|] == ok && forall n :: 0 <= n < |commits| ==> (commits + [ok])[n] == commits[n];
  }

  lemma NothingReplayed(cands: seq<Pair>)
    ensures Replayed(cands, 0, [], []) && AllCommitted([])
  {
  }

  lemma AllReplayed(cands: seq<Pair>, commits: seq<bool>, merged: seq<Pair>)
    requires Replayed(cands, |cands|, commits, merged)
    ensures |commits| == |cands| && merged == Replay(cands, commits)
  {
    assert cands[..|cands|] == cands;
  }

  lemma NothingMerged(start: Db)
    requires Ledger(start)
    ensures MergedTables(start, start, [])
  {
    assert start.contexts - Removed([]) == start.contexts;
  }

  /** A listed row, as the snapshot holds it. */
  ghost predicate SnapOf(contexts: map<Id, Context>, s: Snap) {
    s.id in ActiveIds(contexts) && s.title == contexts[s.id].title && s.eventCount == contexts[s.id].eventCount
  }

  /** The tables after the given merges. */
  ghost predicate MergedTables(a: Db, b: Db, merged: seq<Pair>) {
    Ledger(b) && MergedOnly(a, b, merged)
  }

  ghost predicate MergedOnly(a: Db, b: Db, merged: seq<Pair>) {
    && b.resources == MergeAll(a.resources, merged)
    && b.actions == MergeAll(a.actions, merged)
    && b.contexts == a.contexts - Removed(merged)
    && b.merges == a.merges + merged
    && b.log == a.log && b.edges == a.edges && b.issued == a.issued && b.owed == a.owed
  }

  lemma RemovedSnoc(merged: seq<Pair>, p: Pair)
    ensures Removed(merged + [p]) == Removed(merged) + {p.remove}
  {
  }

  lemma WithoutOneMore<T>(m: map<Id, T>, gone: set<Id>, x: Id)
    ensures m - gone - {x} == m - (gone + {x})
  {
  }

  /** The removed ids so far, and the cache without them. */
  ghost predicate Dropped(before: map<Id, Vec>, now: map<Id, Vec>, gone: set<Id>, merged: seq<Pair>) {
    gone == Removed(merged) && now == before - gone
  }

  lemma DroppedOneMore(before: map<Id, Vec>, now: map<Id, Vec>, gone: set<Id>, merged: seq<Pair>, p: Pair)
    requires Dropped(before, now, gone, merged)
    ensures Dropped(before, now - {p.remove}, gone + {p.remove}, merged + [p])
  {
    RemovedSnoc(merged, p);
    WithoutOneMore(before, gone, p.remove);
  }

  lemma MergeAllSnoc<P>(t: set<Row<P>>, merged: seq<Pair>, p: Pair)
    ensures MergeAll(t, merged + [p]) == Merged(MergeAll(t, merged), p.keep, p.remove)
  {
    assert (merged + [p])[..|merged|] == merged;
  }

  lemma MergedOnlyOneMore(a: Db, b: Db, merged: seq<Pair>, p: Pair)
    requires MergedOnly(a, b, merged)
    ensures MergedOnly(a, Apply(b, MergeContexts(p.keep, p.remove)), merged + [p])
  {
    RemovedSnoc(merged, p);
    WithoutOneMore(a.contexts, Removed(merged), p.remove);
    MergeAllSnoc(a.resources, merged, p);
    MergeAllSnoc(a.actions, merged, p);
    assert a.merges + (merged + [p]) == (a.merges + merged) + [p];
  }

  lemma MergeOneMore(a: Db, b: Db, merged: seq<Pair>, p: Pair)
    requires MergedTables(a, b, merged) && p.keep != p.remove
    ensures MergedTables(a, Apply(b, MergeContexts(p.keep, p.remove)), merged + [p])
  {
    LedgerStep(b, MergeContexts(p.keep, p.remove));
    MergedOnlyOneMore(a, b, merged, p);
  }

  ghost predicate DistinctEvents(events: seq<Id>) {
    forall i, j :: 0 <= i < j < |events| ==> events[i] != events[j]
  }

  /** The events of a batch: distinct and not yet assigned. */
  ghost predicate Queued(log: map<Id, LogRow>, events: seq<Id>) {
    && DistinctEvents(events)
    && forall k :: 0 <= k < |events| ==> events[k] in log && log[events[k]].workContext.None?
  }

  lemma QueuedMeaning(log: map<Id, LogRow>, events: seq<Id>)
    requires Queued(log, events)
    ensures DistinctEvents(events)
    ensures forall k :: 0 <= k < |events| ==> events[k] in log && log[events[k]].workContext.None?
  {
  }

  /** What one turn of the batch loop does to the tables. */
  ghost predicate Turn(a: Db, b: Db, e: Id, r: Outcome) {
    && Processing(a, b)
    && (forall f :: f in a.log && f != e ==> b.log[f] == a.log[f])
    && (r.Assigned? ==> AssignedNow(a.log, b.log, b.contexts, Assignment(e, r.id)))
  }

  /** The state of a batch after the first n events. */
  ghost predicate BatchDone(start: Db, db: Db, events: seq<Id>, n: nat, done: seq<Assignment>, clean: bool) {
    && n <= |events|
    && Processing(start, db)
    && Pending(start, db, events, n)
    && (forall a :: a in done ==> AssignedNow(start.log, db.log, db.contexts, a))
    && (clean ==> Handled(db, events, n))
  }

  ghost predicate Pending(start: Db, db: Db, events: seq<Id>, n: nat) {
    forall k :: n <= k < |events| ==>
        events[k] in db.log && events[k] in start.log && db.log[events[k]] == start.log[events[k]]
  }

  ghost predicate Handled(db: Db, events: seq<Id>, n: nat)
    requires n <= |events|
  {
    forall k :: 0 <= k < n ==> events[k] in db.log && db.log[events[k]].workContext.Some?
  }

  /** One turn touches the row of its own event only. */
  lemma PendingStays(start: Db, a: Db, b: Db, events: seq<Id>, n: nat, r: Outcome)
    requires n < |events| && Pending(start, a, events, n) && Turn(a, b, events[n], r)
    requires DistinctEvents(events)
    ensures Pending(start, b, events, n + 1)
  {
  }

  lemma HandledStays(a: Db, b: Db, events: seq<Id>, n: nat, r: Outcome)
    requires n < |events| && Handled(a, events, n) && Turn(a, b, events[n], r) && r.Assigned?
    ensures Handled(b, events, n + 1)
  {
  }

  lemma TurnExtendsBatch(start: Db, a: Db, b: Db, events: seq<Id>, n: nat, done: seq<Assignment>, clean: bool,
                         r: Outcome, fine: bool)
    requires n < |events| && BatchDone(start, a, events, n, done, clean) && Turn(a, b, events[n], r)
    requires DistinctEvents(events) && (fine ==> !r.Failed?)
    ensures Processing(start, b)
    ensures !r.Panicked? ==>
              BatchDone(start, b, events, n + 1,
                        if r.Assigned? then done + [Assignment(events[n], r.id)] else done, clean && fine)
  {
    ProcessingTrans(start, a, b);
    DoneStays(start, a, b, done);
    PendingStays(start, a, b, events, n, r);
    if clean && fine && r.Assigned? { HandledStays(a, b, events, n, r); }
  }

  /** Later turns do not touch what earlier ones assigned. */
  lemma DoneStays(start: Db, a: Db, b: Db, done: seq<Assignment>)
    requires Processing(a, b) && forall x :: x in done ==> AssignedNow(start.log, a.log, a.contexts, x)
    ensures forall x :: x in done ==> AssignedNow(start.log, b.log, b.contexts, x)
  {
    forall x | x in done ensures AssignedNow(start.log, b.log, b.contexts, x) {
      assert AssignedNow(start.log, a.log, a.contexts, x);
    }
  }

  /** A turn that ends without its log row written. */
  lemma TurnBreaksOff(a: Db, b: Db, e: Id, r: Outcome)
    requires Ledger(a) && Assigning(a, b) && !r.Assigned?
    ensures Turn(a, b, e, r)
  {
  }

  lemma StaysActive(a: Db, b: Db, active: seq<(Id, Context)>)
    requires Assigning(a, b) && forall x :: x in active ==> x.0 in ActiveIds(a.contexts)
    ensures forall x :: x in active ==> x.0 in ActiveIds(b.contexts)
  {
  }

  ghost predicate SameOwed(a: Db, b: Db) {
    forall c :: Owed(b, c) == Owed(a, c)
  }

  lemma ProcessingTrans(a: Db, b: Db, c: Db)
    requires Processing(a, b) && Processing(b, c)
    ensures Processing(a, c)
  {
  }

  /** Writing the log row settles the count that the assignment raised. */
  lemma AssignmentCompletes(a: Db, b: Db, e: Id, id: Id)
    requires Ledger(a) && Assigning(a, b) && b.owed == Owe(a, id) && id in b.contexts && e in a.log
              && a.log[e].workContext.None?
    ensures Enabled(b, Stmt.SetWorkContext(e, id))
    ensures Processing(a, Apply(b, Stmt.SetWorkContext(e, id)))
    ensures SameOwed(a, Apply(b, Stmt.SetWorkContext(e, id)))
    ensures AssignedNow(a.log, Apply(b, Stmt.SetWorkContext(e, id)).log, b.contexts, Assignment(e, id))
  {
    LedgerStep(b, Stmt.SetWorkContext(e, id));
  }

  /** The count was raised and now the row points at the context: a complete turn. */
  lemma TurnCompletes(a: Db, b: Db, e: Id, r: Outcome)
    requires Ledger(a) && Assigning(a, b) && r.Assigned? && b.owed == Owe(a, r.id)
    requires r.id in ActiveIds(b.contexts) && e in a.log && a.log[e].workContext.None?
    ensures Turn(a, Apply(b, Stmt.SetWorkContext(e, r.id)), e, r)
    ensures SameOwed(a, Apply(b, Stmt.SetWorkContext(e, r.id)))
  {
    AssignmentCompletes(a, b, e, r.id);
  }

  lemma NothingProcessed(db: Db)
    requires Ledger(db)
    ensures Processing(db, db)
  {
  }

  lemma QueryMeaning(log: map<Id, LogRow>, since: int, events: seq<Id>)
    requires Lists(events, Unassigned(log, since), OldestFirst(log), QUERY_LIMIT)
    ensures Queued(log, events)
    ensures events == [] ==> Unassigned(log, since) == {}
  {
    assert forall k :: 0 <= k < |events| ==> events[k] in events;
  }

  lemma ListingMeaning(contexts: map<Id, Context>, active: seq<(Id, Context)>)
    requires IsListing(contexts, active)
    ensures forall a :: a in active ==> a.0 in ActiveIds(contexts)
    ensures forall i, j :: 0 <= i < j < |active| ==> active[i].0 != active[j].0
  {
  }

  lemma BootstrapMeaning(before: map<Id, Vec>, after: map<Id, Vec>, contexts: map<Id, Context>, env: Environment)
    requires Bootstrapped(before, after, contexts, env)
    ensures before.Keys <= ActiveIds(contexts) ==> after.Keys <= ActiveIds(contexts)
    ensures EmbedderUp(env) ==> AllCached(before, contexts, env)
    ensures AllCached(before, contexts, env) ==> forall c :: c in ActiveIds(contexts) ==> c in after
  {
  }

  lemma BatchStarts(db: Db, events: seq<Id>)
    requires Ledger(db) && Queued(db.log, events)
    ensures BatchDone(db, db, events, 0, [], true) && OthersKept(db.log, db.log, events)
  {
  }

  /** What a whole batch leaves behind. */
  lemma BatchResult(a: Db, b: Db, events: seq<Id>, done: seq<Assignment>, clean: bool)
    requires BatchDone(a, b, events, |events|, done, clean) && OthersKept(a.log, b.log, events)
    ensures Processing(a, b) && (clean ==> Handled(b, events, |events|))
    ensures forall x :: x in done ==> x.event in events && AssignedNow(a.log, b.log, b.contexts, x)
  {
  }

  lemma NothingLeft(a: Db, b: Db, since: int, events: seq<Id>)
    requires Lists(events, Unassigned(a.log, since), OldestFirst(a.log), QUERY_LIMIT)
    requires |Unassigned(a.log, since)| < QUERY_LIMIT
    requires Processing(a, b) && Handled(b, events, |events|)
    ensures Unassigned(b.log, since) == {}
  {
    ShortListIsComplete(events, Unassigned(a.log, since), OldestFirst(a.log), QUERY_LIMIT);
    assert Unassigned(b.log, since) <= Unassigned(a.log, since);
    forall e | e in Unassigned(a.log, since) ensures e !in Unassigned(b.log, since) {
      var k :| 0 <= k < |events| && events[k] == e;
    }
  }

  lemma ShortListIsComplete(s: seq<Id>, ids: set<Id>, key: Id -> int, limit: nat)
    requires Lists(s, ids, key, limit) && |ids| < limit
    ensures forall e :: e in ids ==> e in s
  {
    SizeOfListed(s, key);
    var listed := set c | c in s;
    assert ids == listed + (ids - listed);
  }

  datatype LoopError = StorageFailed | TaskPanicked

  /** What a batch may do to the tables, however far it gets. */
  ghost predicate Processing(a: Db, b: Db) {
    && Ledger(b)
    && b.actions == a.actions && b.merges == a.merges
    && a.contexts.Keys <= b.contexts.Keys
    && (forall c :: c in a.contexts ==>
          b.contexts[c].status == a.contexts[c].status && b.contexts[c].title == a.contexts[c].title)
    && (forall c :: c in b.contexts && c !in a.contexts ==> b.contexts[c].status == Active)
    && b.log.Keys == a.log.Keys
    && (forall e :: e in a.log ==>
          || b.log[e] == a.log[e]
          || (a.log[e].workContext.None? && b.log[e] == a.log[e].(workContext := b.log[e].workContext)))
  }

  ghost predicate AssignedNow(before: map<Id, LogRow>, after: map<Id, LogRow>, contexts: map<Id, Context>,
                              a: Assignment) {
    && a.event in before && before[a.event].workContext.None? && a.id in contexts
    && a.event in after && after[a.event].workContext == Some(a.id)
  }

  function Semantic(env: Environment, centroids: map<Id, Vec>, vec: Option<Vec>, id: Id): real {
    if vec.Some? && id in centroids then Cosine(vec.value, centroids[id], env.sqrt) else 0.0
  }

  function ScoreOf(config: Config, env: Environment, event: LogRow, a: (Id, Context), semantic: real,
                   members: set<Id>): real {
    Score(config.weights, event.resourceId, env.lower(env.inferTitle(event)),
          Candidate(a.0, a.1.title, semantic, env.temporal(a.1), members), env.lower)
  }

  /**
   What the parts of a listed context's score weigh: another similarity counts
   with the semantic weight, and a resource the context lacks counts nothing.
   */
  lemma ScoreOfWeighs(config: Config, env: Environment, event: LogRow, a: (Id, Context), x: real, y: real,
                      members: set<Id>)
    ensures ScoreOf(config, env, event, a, x, members) - ScoreOf(config, env, event, a, y, members)
         == config.weights.semantic * (x - y)
    ensures event.resourceId.Some? && event.resourceId.value in members ==>
              ScoreOf(config, env, event, a, x, members) - ScoreOf(config, env, event, a, x, {})
                == config.weights.resource * (1.0 / |members| as real)
    ensures event.resourceId.None? || event.resourceId.value !in members ==>
              ScoreOf(config, env, event, a, x, members) == ScoreOf(config, env, event, a, x, {})
  {
    var title := env.lower(env.inferTitle(event));
    var c := Candidate(a.0, a.1.title, y, env.temporal(a.1), members);
    WeightsApply(config.weights, event.resourceId, title, c, env.lower, x);
    if event.resourceId.Some? {
      var r := event.resourceId.value;
      ResourceCounts(config.weights, r, title, c.(semantic := x), env.lower);
      ResourceCounts(config.weights, r, title, c.(semantic := x, resources := {}), env.lower);
    }
  }

  /** Two contexts that differ in age only differ in score by the temporal weight of that. */
  lemma AgeWeighs(config: Config, env: Environment, event: LogRow, a: (Id, Context), b: (Id, Context), x: real,
                  members: set<Id>)
    requires a.1.title == b.1.title
    ensures ScoreOf(config, env, event, b, x, members) - ScoreOf(config, env, event, a, x, members)
         == config.weights.temporal * (env.temporal(b.1) - env.temporal(a.1))
  {
    var title := env.lower(env.inferTitle(event));
    var c := Candidate(a.0, a.1.title, x, env.temporal(a.1), members);
    WeightsApply(config.weights, event.resourceId, title, c, env.lower, env.temporal(b.1));
  }

  /** The scores an event gets against a snapshot when every read succeeds. */
  function ScoresOver(config: Config, env: Environment, centroids: map<Id, Vec>, resources: set<Row<Relevance>>,
                      event: LogRow, active: seq<(Id, Context)>, vec: Option<Vec>): seq<real>
  {
    seq(|active|, i requires 0 <= i < |active| =>
      ScoreOf(config, env, event, active[i], Semantic(env, centroids, vec, active[i].0), Items(resources, active[i].0)))
  }

  /** The outcome is the one that the scores decide. */
  ghost predicate FollowsScores(config: Config, env: Environment, centroids: map<Id, Vec>,
                                resources: set<Row<Relevance>>,
                                event: LogRow, active: seq<(Id, Context)>, r: Outcome)
  {
    var vec := if config.weights.semantic > 0.0 then env.embedEvent(event) else None;
    var scores := ScoresOver(config, env, centroids, resources, event, active, vec);
    match r
    case Assigned(id, true, score) => Decides(scores, config.assignmentThreshold, Create(score))
    case Assigned(id, false, score) =>
      exists i: nat ::
        i < |active| && id == active[i].0 && Decides(scores, config.assignmentThreshold, Reuse(i, score))
    case Panicked => Decides(scores, config.assignmentThreshold, Panic)
    case Failed => false
  }

  lemma DecisionFollows(config: Config, env: Environment, centroids: map<Id, Vec>, resources: set<Row<Relevance>>,
                        event: LogRow, active: seq<(Id, Context)>, vec: Option<Vec>, decision: Decision, r: Outcome)
    requires vec == if config.weights.semantic > 0.0 then env.embedEvent(event) else None
    requires var scores := ScoresOver(config, env, centroids, resources, event, active, vec);
             Decides(scores, config.assignmentThreshold, decision)
    requires match decision
             case Panic => r.Panicked?
             case Reuse(i, score) => i < |active| && r == Assigned(active[i].0, false, score)
             case Create(score) => r.Assigned? && r.isNew && r.score == score
    ensures FollowsScores(config, env, centroids, resources, event, active, r)
  {
  }

  /** One statement of an assignment. */
  lemma AssigningStep(db: Db, s: Stmt)
    requires Ledger(db)
    requires s.UpdateStats? || s.UpdateConfidence? || (s.InsertContext? && Enabled(db, s))
    ensures Assigning(db, Apply(db, s))
  {
    LedgerStep(db, s);
  }

  lemma LinkKeepsKey(rows: set<Row<Relevance>>, ctx: Id, r: Id, now: int)
    requires KeyUnique(rows)
    ensures KeyUnique(Link(rows, ctx, r, 0.5, now))
  {
    LinkMeaning(rows, ctx, r, 0.5, now);
  }

  /** New links and edges, and ids issued for them, are part of assigning an event. */
  lemma LinkingAssigns(a: Db, b: Db)
    requires KeyUnique(b.resources) && a.issued <= b.issued
    requires b == a.(resources := b.resources, edges := b.edges, issued := b.issued)
    ensures Assigning(a, b)
  {
  }

  lemma AssigningRefl(db: Db)
    ensures Assigning(db, db)
  {
  }

  lemma AssigningTrans(a: Db, b: Db, c: Db)
    requires Assigning(a, b) && Assigning(b, c)
    ensures Assigning(a, c)
  {
  }

  /** Every active context once, with the row it had, newest first. */
  ghost predicate IsListing(contexts: map<Id, Context>, active: seq<(Id, Context)>) {
    && (forall k :: 0 <= k < |active| ==> active[k].0 in ActiveIds(contexts) && active[k].1 == contexts[active[k].0])
    && (forall c :: c in ActiveIds(contexts) ==> exists k :: 0 <= k < |active| && active[k].0 == c)
    && (forall i, j :: 0 <= i < j < |active| ==>
          active[i].0 != active[j].0 && active[i].1.lastActiveAt >= active[j].1.lastActiveAt)
  }

  const QUERY_LIMIT: nat := 500

  function Unassigned(log: map<Id, LogRow>, since: int): set<Id> {
    set e | e in log && log[e].workContext.None? && log[e].timestamp >= since
  }

  function OldestFirst(log: map<Id, LogRow>): Id -> int {
    e => if e in log then log[e].timestamp else 0
  }

  /** A batch takes at most 500 waiting rows, the oldest ones, in order of time. */
  lemma OldestAreServed(log: map<Id, LogRow>, since: int, listed: seq<Id>)
    requires Lists(listed, Unassigned(log, since), OldestFirst(log), QUERY_LIMIT)
    ensures |listed| <= 500
    ensures forall e :: e in listed ==> e in log && log[e].workContext.None? && log[e].timestamp >= since
    ensures forall i, j :: 0 <= i < j < |listed| ==>
              listed[i] in log && listed[j] in log && log[listed[i]].timestamp <= log[listed[j]].timestamp
    ensures forall e, f :: e in listed && f in Unassigned(log, since) && f !in listed ==>
              |listed| == 500 && log[e].timestamp <= log[f].timestamp
  {
    forall i, j | 0 <= i < j < |listed|
      ensures listed[i] in log && listed[j] in log && log[listed[i]].timestamp <= log[listed[j]].timestamp
    {
      assert listed[i] in listed && listed[j] in listed;
      assert OldestFirst(log)(listed[i]) <= OldestFirst(log)(listed[j]);
    }
    forall e, f | e in listed && f in Unassigned(log, since) && f !in listed
      ensures |listed| == 500 && log[e].timestamp <= log[f].timestamp
    {
      assert OldestFirst(log)(e) <= OldestFirst(log)(f);
    }
  }

  function NewestFirst(contexts: map<Id, Context>): Id -> int {
    c => if c in contexts then -contexts[c].lastActiveAt else 0
  }

  lemma AllAreListed(contexts: map<Id, Context>, ids: seq<Id>)
    requires Lists(ids, ActiveIds(contexts), NewestFirst(contexts), |ActiveIds(contexts)| + 1)
    ensures (set c | c in ids) == ActiveIds(contexts)
    ensures forall i :: 0 <= i < |ids| ==> ids[i] in contexts
  {
    AllListed(ids, ActiveIds(contexts), NewestFirst(contexts));
    assert forall i :: 0 <= i < |ids| ==> ids[i] in ids;
  }

  lemma RowsOfListed(contexts: map<Id, Context>, ids: seq<Id>, active: seq<(Id, Context)>)
    requires Ordered(ids, NewestFirst(contexts)) && (set c | c in ids) == ActiveIds(contexts)
    requires |active| == |ids| && forall i :: 0 <= i < |ids| ==>
              ids[i] in contexts && active[i] == (ids[i], contexts[ids[i]])
    ensures IsListing(contexts, active)
  {
    forall c | c in ActiveIds(contexts) ensures exists k :: 0 <= k < |active| && active[k].0 == c {
      assert c in (set d | d in ids);
      var k :| 0 <= k < |ids| && ids[k] == c;
      assert active[k].0 == c;
    }
    forall k | 0 <= k < |active| ensures active[k].0 in ActiveIds(contexts) {
      assert ids[k] in (set d | d in ids);
    }
  }

  /** Without a limit that bites, everything is listed. */
  lemma AllListed(s: seq<Id>, ids: set<Id>, key: Id -> int)
    requires Lists(s, ids, key, |ids| + 1)
    ensures (set c | c in s) == ids
  {
    var listed := set c | c in s;
    SizeOfListed(s, key);
    assert ids == listed + (ids - listed);
  }
}
