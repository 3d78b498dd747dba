/**
 What one assignment, one batch, one merge pass and one tick do to the tables and
 the centroids, as relations between the states before and after. Each turn of a
 batch and each tick is exact as long as no storage call of its own failed.
 */
module InferenceSpec {
  import opened Basics
  import opened Listing
  import opened Vectors
  import opened LinkRows
  import opened CoAccess
  import opened MergePass
  import opened Scoring
  import opened Tables
  import opened InferenceModel

  /** What the engine works on. */
  datatype View = View(db: Db, centroids: map<Id, Vec>)

  function LinksOf(db: Db): Graph { Graph(db.edges, db.resources) }

  // ---- One assignment ----

  /**
   The resource of an event is linked to a context: the event's own resource id,
   or one never issued before; without a resource name nothing is linked.
   */
  ghost predicate Linked(event: LogRow, id: Id, now: int, a: Db, link: Option<Id>, b: Db) {
    && KeyUnique(a.resources)
    && (link.Some? <==> event.resourceName.Some?)
    && (link.Some? && event.resourceId.Some? ==> link == event.resourceId)
    && (link.Some? && event.resourceId.None? ==> link.value !in a.issued)
    && b == a.(resources := b.resources, edges := b.edges, issued := b.issued)
    && b.issued == (if link.Some? && event.resourceId.None? then a.issued + {link.value} else a.issued)
    && LinksOf(b) == (if link.Some? then Step(LinksOf(a), Access(id, link.value, now)) else LinksOf(a))
  }

  /** A row after an assignment: its confidence from its count and its resources, its decorations from both. */
  function Weighed(env: Environment, row: Context, score: real, members: set<Id>): Context {
    var weighed := row.(confidence := env.confidence(row.eventCount, score, |members|));
    weighed.(decor := env.enrich(weighed, members))
  }

  /** The confidence first, then the decorations: together the row weighed anew. */
  lemma WeighedInTwo(env: Environment, a: Db, b: Db, c: Db, id: Id, score: real)
    requires b == a.(contexts := b.contexts) && c == b.(contexts := c.contexts)
    requires b.contexts == if id !in a.contexts then a.contexts else
               a.contexts[id := a.contexts[id].(
                 confidence := env.confidence(a.contexts[id].eventCount, score, |Items(a.resources, id)|))]
    requires Refreshed(b.contexts, c.contexts, id)
    requires id in c.contexts ==>
               && c.contexts[id].confidence == b.contexts[id].confidence
               && c.contexts[id].decor == env.enrich(b.contexts[id], Items(a.resources, id))
    ensures c == WeighedDb(env, a, id, true, score)
  {
  }

  function EventVector(config: Config, env: Environment, event: LogRow): Option<Vec> {
    if config.weights.semantic > 0.0 then env.embedEvent(event) else None
  }

  /** The row of a new context, or the row of a listed one with one more event. */
  function CountedDb(env: Environment, event: LogRow, now: int, a: Db, id: Id, seen: Option<Context>): Db {
    match seen
    case None => Apply(a, InsertContext(id, NewContext(env, event, now)))
    case Some(ctx) => Apply(a, UpdateStats(id, now, Elapsed(event, ctx)))
  }

  /** A reused row is weighed anew; a new one keeps what it was created with. */
  function WeighedDb(env: Environment, db: Db, id: Id, reused: bool, score: real): Db {
    if reused && id in db.contexts
    then db.(contexts := db.contexts[id := Weighed(env, db.contexts[id], score, Items(db.resources, id))])
    else db
  }

  /** A reused context's centroid absorbs the event's vector; a new context starts from it. */
  function Recentred(config: Config, env: Environment, centroids: map<Id, Vec>, id: Id, reused: bool, vec: Option<Vec>):
    map<Id, Vec>
  {
    match vec
    case None => centroids
    case Some(v) =>
      var was := if reused && id in centroids then centroids[id] else v;
      centroids[id := if reused then Absorb(was, v, config.centroidLearningRate, env.sqrt) else v]
  }

  /** The event goes to context `id`: one seen in the listing, or a new one. */
  ghost predicate AssignedAs(config: Config, env: Environment, event: LogRow, vec: Option<Vec>, now: int, a: View,
                             id: Id, seen: Option<Context>, score: real, link: Option<Id>, b: View)
  {
    && (if seen.Some? then id in a.db.contexts else id !in a.db.issued)
    && (exists linked ::
          && Linked(event, id, now, CountedDb(env, event, now, a.db, id, seen), link, linked)
          && b.db == WeighedDb(env, linked, id, seen.Some?, score))
    && b.centroids == Recentred(config, env, a.centroids, id, seen.Some?, vec)
  }

  /** The whole effect of assigning an event when no storage call fails. */
  ghost predicate Assigns(config: Config, env: Environment, event: LogRow, active: seq<(Id, Context)>, now: int,
                          a: View, r: Outcome, b: View)
  {
    if !EventEmbeds(config, env, event) then r.Failed? && b == a
    else
      && FollowsScores(config, env, a.centroids, a.db.resources, event, active, r)
      && match r
         case Failed => false
         case Panicked => b == a
         case Assigned(id, isNew, score) =>
           exists seen: Option<Context>, link: Option<Id> ::
             && (isNew <==> seen.None?) && (seen.Some? ==> (id, seen.value) in active)
             && AssignedAs(config, env, event, EventVector(config, env, event), now, a, id, seen, score, link, b)
  }

  lemma NotEmbedded(config: Config, env: Environment, event: LogRow, active: seq<(Id, Context)>, now: int, a: View)
    ensures !EventEmbeds(config, env, event) ==> Assigns(config, env, event, active, now, a, Failed, a)
  {
  }

  lemma NewIsAssigned(config: Config, env: Environment, event: LogRow, vec: Option<Vec>, now: int, a: View,
                      id: Id, score: real, link: Option<Id>, b: View)
    requires id !in a.db.issued
    requires Linked(event, id, now, Apply(a.db, InsertContext(id, NewContext(env, event, now))), link, b.db)
    requires b.centroids == if vec.Some? then a.centroids[id := vec.value] else a.centroids
    ensures AssignedAs(config, env, event, vec, now, a, id, None, score, link, b)
  {
    var none: Option<Context> := None;
    assert Linked(event, id, now, CountedDb(env, event, now, a.db, id, none), link, b.db);
    assert b.db == WeighedDb(env, b.db, id, none.Some?, score);
  }

  lemma ReuseIsAssigned(config: Config, env: Environment, event: LogRow, vec: Option<Vec>, now: int, a: View,
                        id: Id, seen: Context, score: real, link: Option<Id>, linked: Db, b: View)
    requires id in a.db.contexts
    requires Linked(event, id, now, Apply(a.db, UpdateStats(id, now, Elapsed(event, seen))), link, linked)
    requires b.db == WeighedDb(env, linked, id, true, score)
    requires b.centroids == Recentred(config, env, a.centroids, id, true, vec)
    ensures AssignedAs(config, env, event, vec, now, a, id, Some(seen), score, link, b)
  {
    assert Linked(event, id, now, CountedDb(env, event, now, a.db, id, Some(seen)), link, linked);
  }

  lemma PanicAssigns(config: Config, env: Environment, event: LogRow, active: seq<(Id, Context)>, now: int, a: View)
    requires EventEmbeds(config, env, event)
    requires FollowsScores(config, env, a.centroids, a.db.resources, event, active, Panicked)
    ensures Assigns(config, env, event, active, now, a, Panicked, a)
  {
  }

  lemma DecisionAssigns(config: Config, env: Environment, event: LogRow, active: seq<(Id, Context)>, now: int, a: View,
                        id: Id, seen: Option<Context>, score: real, link: Option<Id>, b: View)
    requires EventEmbeds(config, env, event)
    requires FollowsScores(config, env, a.centroids, a.db.resources, event, active, Assigned(id, seen.None?, score))
    requires seen.Some? ==> (id, seen.value) in active
    requires AssignedAs(config, env, event, EventVector(config, env, event), now, a, id, seen, score, link, b)
    ensures Assigns(config, env, event, active, now, a, Assigned(id, seen.None?, score), b)
  {
  }

  // ---- A batch ----

  /** The exact effect of one turn: the assignment, and the log row pointed at the context. */
  ghost predicate Takes(config: Config, env: Environment, e: Id, active: seq<(Id, Context)>, now: int,
                        a: View, r: Outcome, b: View)
  {
    && e in a.db.log
    && exists mid ::
         && Assigns(config, env, a.db.log[e], active, now, a, r, mid)
         && b == if r.Assigned? then View(Apply(mid.db, SetWorkContext(e, r.id)), mid.centroids) else mid
  }

  /**
   One turn of the batch loop from storage call `at` up to `to`: exact when none
   of its calls failed, and otherwise no more than any turn may do.
   */
  ghost predicate TurnRuns(config: Config, env: Environment, e: Id, active: seq<(Id, Context)>, now: int,
                           a: View, at: nat, r: Outcome, b: View, to: nat)
  {
    && at <= to && !r.Panicked? && Turn(a.db, b.db, e, r)
    && (r.Failed? ==> b.db.log == a.db.log)
    && (r.Assigned? ==> e in a.db.log && EventEmbeds(config, env, a.db.log[e]))
    && (Smooth(env.fails, at, to) ==> Takes(config, env, e, active, now, a, r, b))
  }

  /** The turns of a batch, one for each event in order, each between its own storage calls. */
  ghost predicate BatchRuns(config: Config, env: Environment, events: seq<Id>, active: seq<(Id, Context)>, now: int,
                            a: View, at: nat, rs: seq<Outcome>, b: View, to: nat)
    decreases |events|
  {
    |rs| == |events| &&
    if events == [] then b == a && to == at
    else
      var n := |events| - 1;
      exists mid, between ::
        && BatchRuns(config, env, events[..n], active, now, a, at, rs[..n], mid, between)
        && TurnRuns(config, env, events[n], active, now, mid, between, rs[n], b, to)
  }

  lemma NoTurns(config: Config, env: Environment, events: seq<Id>, active: seq<(Id, Context)>, now: int, a: View,
                at: nat)
    ensures BatchRuns(config, env, events[..0], active, now, a, at, [], a, at)
  {
  }

  lemma OneMoreTurn(config: Config, env: Environment, events: seq<Id>, active: seq<(Id, Context)>, now: int, n: nat,
                    a: View, at: nat, rs: seq<Outcome>, mid: View, between: nat, r: Outcome, b: View, to: nat)
    requires n < |events| && BatchRuns(config, env, events[..n], active, now, a, at, rs, mid, between)
    requires TurnRuns(config, env, events[n], active, now, mid, between, r, b, to)
    ensures BatchRuns(config, env, events[..n + 1], active, now, a, at, rs + [r], b, to)
  {
    assert events[..n + 1][..n] == events[..n] && (rs + [r])[..n] == rs;
  }

  lemma TurnTakes(config: Config, env: Environment, e: Id, active: seq<(Id, Context)>, now: int,
                  a: View, mid: View, r: Outcome, b: View)
    requires e in a.db.log && Assigns(config, env, a.db.log[e], active, now, a, r, mid)
    requires b == if r.Assigned? then View(Apply(mid.db, SetWorkContext(e, r.id)), mid.centroids) else mid
    ensures Takes(config, env, e, active, now, a, r, b)
  {
  }

  lemma EmptyBatch(config: Config, env: Environment, events: seq<Id>, active: seq<(Id, Context)>, now: int,
                   a: View, at: nat, rs: seq<Outcome>, b: View, to: nat)
    requires BatchRuns(config, env, events[..0], active, now, a, at, rs, b, to)
    ensures b == a && to == at && rs == []
  {
  }

  lemma LastOfBatch(config: Config, env: Environment, events: seq<Id>, active: seq<(Id, Context)>, now: int, m: nat,
                    a: View, at: nat, rs: seq<Outcome>, b: View, to: nat) returns (mid: View, between: nat)
    requires m < |events| && BatchRuns(config, env, events[..m + 1], active, now, a, at, rs, b, to)
    ensures |rs| == m + 1 && rs == rs[..m] + [rs[m]]
    ensures BatchRuns(config, env, events[..m], active, now, a, at, rs[..m], mid, between)
    ensures TurnRuns(config, env, events[m], active, now, mid, between, rs[m], b, to)
  {
    hide TurnRuns;
    assert events[..m + 1][..m] == events[..m] && events[..m + 1][m] == events[m];
    mid, between :| BatchRuns(config, env, events[..m], active, now, a, at, rs[..m], mid, between)
                 && TurnRuns(config, env, events[m], active, now, mid, between, rs[m], b, to);
  }

  /** What a batch reports: the assigned events in order, with their contexts. */
  function Reported(events: seq<Id>, rs: seq<Outcome>): seq<Assignment>
    requires |rs| == |events|
  {
    if events == [] then []
    else
      var n := |events| - 1;
      Reported(events[..n], rs[..n]) + if rs[n].Assigned? then [Assignment(events[n], rs[n].id)] else []
  }

  lemma NothingReported(events: seq<Id>)
    ensures Reported(events[..0], []) == []
  {
  }

  lemma ReportedSnoc(events: seq<Id>, n: nat, rs: seq<Outcome>, r: Outcome)
    requires n < |events| && |rs| == n
    ensures var done := Reported(events[..n], rs);
            Reported(events[..n + 1], rs + [r]) == if r.Assigned? then done + [Assignment(events[n], r.id)] else done
  {
    assert events[..n + 1][..n] == events[..n] && (rs + [r])[..n] == rs;
    var done := Reported(events[..n], rs);
    assert done + [] == done;
  }

  // ---- What a batch leaves behind ----

  /** After n turns: the tables, what was reported, and the rows not yet reached. */
  ghost predicate SoFar(a: Db, b: Db, events: seq<Id>, n: nat, done: seq<Assignment>) {
    && Queued(a.log, events) && |done| <= n && BatchDone(a, b, events, n, done, |done| == n)
    && OthersKept(a.log, b.log, events)
  }

  lemma SoFarStarts(a: Db, events: seq<Id>)
    requires Ledger(a) && Queued(a.log, events)
    ensures SoFar(a, a, events, 0, [])
  {
    BatchStarts(a, events);
  }

  lemma SoFarGoesOn(a: Db, mid: Db, b: Db, events: seq<Id>, n: nat, done: seq<Assignment>, r: Outcome)
    requires n < |events| && SoFar(a, mid, events, n, done) && Turn(mid, b, events[n], r) && !r.Panicked?
    ensures SoFar(a, b, events, n + 1, if r.Assigned? then done + [Assignment(events[n], r.id)] else done)
  {
    TurnExtendsBatch(a, mid, b, events, n, done, |done| == n, r, r.Assigned?);
    OthersStayKept(a.log, mid, b, events, n, r);
    BatchWeaker(a, b, events, n + 1, done);
  }

  lemma BatchWeaker(a: Db, b: Db, events: seq<Id>, n: nat, done: seq<Assignment>)
    ensures BatchDone(a, b, events, n, done, true) ==> BatchDone(a, b, events, n, done, false)
  {
  }

  lemma SoFarMeaning(a: Db, b: Db, events: seq<Id>, n: nat, done: seq<Assignment>)
    requires SoFar(a, b, events, n, done)
    ensures Ledger(b) && Processing(a, b) && OthersKept(a.log, b.log, events)
    ensures n < |events| ==>
              && events[n] in a.log && events[n] in b.log && b.log[events[n]] == a.log[events[n]]
              && b.log[events[n]].workContext.None?
  {
  }

  lemma {:induction false} BatchSoFar(config: Config, env: Environment, events: seq<Id>, active: seq<(Id, Context)>,
                                      now: int, a: View, at: nat, n: nat, rs: seq<Outcome>, b: View, to: nat)
    requires Ledger(a.db) && Queued(a.db.log, events) && n <= |events| && |rs| == n
    requires BatchRuns(config, env, events[..n], active, now, a, at, rs, b, to)
    ensures at <= to && SoFar(a.db, b.db, events, n, Reported(events[..n], rs))
    decreases n
  {
    hide SoFar, Ledger, Queued, Takes, EventEmbeds, Turn, BatchRuns, Reported;
    if n == 0 {
      EmptyBatch(config, env, events, active, now, a, at, rs, b, to);
      SoFarStarts(a.db, events);
      NothingReported(events);
    } else {
      var m := n - 1;
      var mid, between := LastOfBatch(config, env, events, active, now, m, a, at, rs, b, to);
      BatchSoFar(config, env, events, active, now, a, at, m, rs[..m], mid, between);
      SoFarGoesOn(a.db, mid.db, b.db, events, m, Reported(events[..m], rs[..m]), rs[m]);
      ReportedSnoc(events, m, rs[..m], rs[m]);
    }
  }

  /**
   An event is assigned only if it embeds; `exact` says that one that embeds is
   assigned too, because no call of its turn failed.
   */
  ghost predicate Served(config: Config, env: Environment, before: map<Id, LogRow>, after: map<Id, LogRow>,
                         e: Id, r: Outcome, exact: bool)
  {
    && e in before && e in after
    && (r.Assigned? <==> after[e].workContext.Some?)
    && (r.Assigned? ==> EventEmbeds(config, env, before[e]))
    && (exact && EventEmbeds(config, env, before[e]) ==> r.Assigned?)
  }

  ghost predicate AllServed(config: Config, env: Environment, before: map<Id, LogRow>, after: map<Id, LogRow>,
                            events: seq<Id>, rs: seq<Outcome>, exact: bool)
  {
    |rs| <= |events| && forall k :: 0 <= k < |rs| ==> Served(config, env, before, after, events[k], rs[k], exact)
  }

  lemma ServedWeaker(config: Config, env: Environment, before: map<Id, LogRow>, after: map<Id, LogRow>,
                     events: seq<Id>, rs: seq<Outcome>, exact: bool, less: bool)
    requires AllServed(config, env, before, after, events, rs, exact) && (less ==> exact)
    ensures AllServed(config, env, before, after, events, rs, less)
  {
  }

  lemma ServedGoesOn(config: Config, env: Environment, log: map<Id, LogRow>, mid: Db, b: Db, events: seq<Id>,
                     rs: seq<Outcome>, r: Outcome, exact: bool)
    requires |rs| < |events| && DistinctEvents(events) && Turn(mid, b, events[|rs|], r)
    requires AllServed(config, env, log, mid.log, events, rs, exact)
    requires Served(config, env, log, b.log, events[|rs|], r, exact)
    ensures AllServed(config, env, log, b.log, events, rs + [r], exact)
  {
    hide EventEmbeds;
    forall k | 0 <= k < |rs| ensures Served(config, env, log, b.log, events[k], rs[k], exact) {
      assert events[k] != events[|rs|];
    }
  }

  lemma {:induction false} BatchAssigns(config: Config, env: Environment, events: seq<Id>, active: seq<(Id, Context)>,
                                        now: int, a: View, at: nat, n: nat, rs: seq<Outcome>, b: View, to: nat)
    requires Ledger(a.db) && Queued(a.db.log, events) && n <= |events| && |rs| == n
    requires BatchRuns(config, env, events[..n], active, now, a, at, rs, b, to)
    ensures AllServed(config, env, a.db.log, b.db.log, events, rs, Smooth(env.fails, at, to))
    decreases n
  {
    if n == 0 {
    } else {
      hide Ledger, Queued, Takes, EventEmbeds, Turn, Smooth, AllServed, Served, SoFar, Reported, BatchRuns;
      var m := n - 1;
      var mid, between := LastOfBatch(config, env, events, active, now, m, a, at, rs, b, to);
      BatchAssigns(config, env, events, active, now, a, at, m, rs[..m], mid, between);
      BatchSoFar(config, env, events, active, now, a, at, m, rs[..m], mid, between);
      OneMoreServed(config, env, events, active, now, a, at, rs[..m], mid, between, rs[m], b, to);
    }
  }

  lemma OneMoreServed(config: Config, env: Environment, events: seq<Id>, active: seq<(Id, Context)>, now: int,
                      a: View, at: nat, rs: seq<Outcome>, mid: View, between: nat, r: Outcome, b: View, to: nat)
    requires |rs| < |events| && at <= between && Queued(a.db.log, events)
    requires SoFar(a.db, mid.db, events, |rs|, Reported(events[..|rs|], rs))
    requires AllServed(config, env, a.db.log, mid.db.log, events, rs, Smooth(env.fails, at, between))
    requires TurnRuns(config, env, events[|rs|], active, now, mid, between, r, b, to)
    ensures AllServed(config, env, a.db.log, b.db.log, events, rs + [r], Smooth(env.fails, at, to))
  {
    var m := |rs|;
    var exact := Smooth(env.fails, at, to);
    SoFarMeaning(a.db, mid.db, events, m, Reported(events[..m], rs));
    QueuedMeaning(a.db.log, events);
    SmoothJoin(env.fails, at, between, to);
    LastTurn(config, env, events, active, now, a, m, mid, between, r, b, to);
    hide AllServed, Queued, SoFar, Takes, Turn, EventEmbeds, Smooth;
    ServedWeaker(config, env, a.db.log, mid.db.log, events, rs, Smooth(env.fails, at, between), exact);
    ServedGoesOn(config, env, a.db.log, mid.db, b.db, events, rs, r, exact);
  }

  lemma LastTurn(config: Config, env: Environment, events: seq<Id>, active: seq<(Id, Context)>, now: int,
                 a: View, m: nat, mid: View, between: nat, r: Outcome, b: View, to: nat)
    requires m < |events| && Queued(a.db.log, events) && events[m] in mid.db.log
    requires mid.db.log[events[m]] == a.db.log[events[m]]
    requires TurnRuns(config, env, events[m], active, now, mid, between, r, b, to)
    ensures Served(config, env, a.db.log, b.db.log, events[m], r, Smooth(env.fails, between, to))
  {
  }

  /** The events that can be embedded, in order. */
  ghost function Embeddable(config: Config, env: Environment, log: map<Id, LogRow>, events: seq<Id>): seq<Id>
    requires AllStoredIn(log, events)
  {
    if events == [] then []
    else
      var n := |events| - 1;
      Embeddable(config, env, log, events[..n]) + if EventEmbeds(config, env, log[events[n]]) then [events[n]] else []
  }

  ghost predicate AllStoredIn(log: map<Id, LogRow>, events: seq<Id>) {
    forall k :: 0 <= k < |events| ==> events[k] in log
  }

  function EventsOf(done: seq<Assignment>): seq<Id> {
    seq(|done|, k requires 0 <= k < |done| => done[k].event)
  }

  lemma {:induction false} ReportedAre(config: Config, env: Environment, log: map<Id, LogRow>, events: seq<Id>,
                                       rs: seq<Outcome>)
    requires AllStoredIn(log, events) && |rs| == |events|
    requires forall k :: 0 <= k < |events| ==> (rs[k].Assigned? <==> EventEmbeds(config, env, log[events[k]]))
    ensures EventsOf(Reported(events, rs)) == Embeddable(config, env, log, events)
  {
    if events == [] {
    } else {
      ReportedAre(config, env, log, events[..|events| - 1], rs[..|events| - 1]);
    }
  }

  /** The last call of a turn is the write of its log row, and it failed; what came before was the assignment. */
  ghost predicate RowWriteFails(config: Config, env: Environment, e: Id, active: seq<(Id, Context)>, now: int,
                                a: View, at: nat, b: View, to: nat)
  {
    && at < to && env.fails(to - 1) && e in a.db.log && b.db.log == a.db.log
    && (Smooth(env.fails, at, to - 1) ==>
          exists r: Outcome :: r.Assigned? && Assigns(config, env, a.db.log[e], active, now, a, r, b))
  }

  /** A batch ends early only at a turn whose row write failed or whose choice was empty. */
  ghost predicate StopsAt(config: Config, env: Environment, events: seq<Id>, active: seq<(Id, Context)>, now: int,
                          a: View, at: nat, n: nat, rs: seq<Outcome>, mid: View, between: nat, error: LoopError,
                          b: View, to: nat)
  {
    && n < |events| && between <= to && BatchRuns(config, env, events[..n], active, now, a, at, rs, mid, between)
    && Turn(mid.db, b.db, events[n], if error.StorageFailed? then Failed else Panicked)
    && match error
       case StorageFailed => RowWriteFails(config, env, events[n], active, now, mid, between, b, to)
       case TaskPanicked => Smooth(env.fails, between, to) ==>
           Takes(config, env, events[n], active, now, mid, Panicked, b)
  }

  /** The batch loop over the given events and listing. */
  ghost predicate AllRun(config: Config, env: Environment, events: seq<Id>, active: seq<(Id, Context)>, now: int,
                         a: View, at: nat, r: Result<seq<Assignment>, LoopError>, b: View, to: nat)
  {
    match r
    case Ok(value) =>
      exists rs :: BatchRuns(config, env, events, active, now, a, at, rs, b, to) && value == Reported(events, rs)
    case Err(error) =>
      exists n, rs, mid, between :: StopsAt(config, env, events, active, now, a, at, n, rs, mid, between, error, b, to)
  }

  lemma AllTurns(config: Config, env: Environment, events: seq<Id>, active: seq<(Id, Context)>, now: int,
                 a: View, at: nat, rs: seq<Outcome>, done: seq<Assignment>, b: View, to: nat)
    requires BatchRuns(config, env, events[..|events|], active, now, a, at, rs, b, to)
    requires |rs| == |events| && done == Reported(events[..|events|], rs)
    ensures AllRun(config, env, events, active, now, a, at, Ok(done), b, to)
  {
    assert events[..|events|] == events;
  }

  lemma Stopped(config: Config, env: Environment, events: seq<Id>, active: seq<(Id, Context)>, now: int,
                a: View, at: nat, n: nat, rs: seq<Outcome>, mid: View, between: nat, error: LoopError, b: View, to: nat)
    requires n < |events| && between <= to && BatchRuns(config, env, events[..n], active, now, a, at, rs, mid, between)
    requires Turn(mid.db, b.db, events[n], if error.StorageFailed? then Failed else Panicked)
    requires error.StorageFailed? ==> RowWriteFails(config, env, events[n], active, now, mid, between, b, to)
    requires error.TaskPanicked? && Smooth(env.fails, between, to) ==>
               Takes(config, env, events[n], active, now, mid, Panicked, b)
    ensures AllRun(config, env, events, active, now, a, at, Err(error), b, to)
  {
    assert StopsAt(config, env, events, active, now, a, at, n, rs, mid, between, error, b, to);
  }

  /** The missing centroids of active contexts are embedded, when the semantic score needs them. */
  ghost predicate Warmed(config: Config, env: Environment, a: View, centroids: map<Id, Vec>) {
    if config.weights.semantic > 0.0 then Bootstrapped(a.centroids, centroids, a.db.contexts, env)
    else centroids == a.centroids
  }

  /** One listing of the active contexts serves the whole batch. */
  ghost predicate ListedRun(config: Config, env: Environment, events: seq<Id>, now: int,
                            a: View, at: nat, r: Result<seq<Assignment>, LoopError>, b: View, to: nat)
  {
    if env.fails(at) then r == Err(StorageFailed) && b == a && to == at + 1
    else
      exists active, centroids ::
        && IsListing(a.db.contexts, active) && Warmed(config, env, a, centroids)
        && AllRun(config, env, events, active, now, View(a.db, centroids), at + 1, r, b, to)
  }

  /** A batch over the oldest unassigned events since a time. */
  ghost predicate RecentRun(config: Config, env: Environment, since: int, now: int,
                            a: View, at: nat, listed: seq<Id>, r: Result<seq<Assignment>, LoopError>, b: View, to: nat)
  {
    if env.fails(at) then r == Err(StorageFailed) && b == a && listed == [] && to == at + 1
    else
      && Lists(listed, Unassigned(a.db.log, since), OldestFirst(a.db.log), QUERY_LIMIT)
      && if listed == [] then r == Ok([]) && b == a && to == at + 1
         else ListedRun(config, env, listed, now, a, at + 1, r, b, to)
  }

  // ---- What a listed batch promises ----

  lemma NothingListed(config: Config, env: Environment, log: map<Id, LogRow>)
    ensures AssignsWhatEmbeds(config, env, log, log, [])
    ensures AllStoredIn(log, []) && EventsOf([]) == Embeddable(config, env, log, [])
  {
  }

  lemma SmoothSplit(fails: Faults, at: nat, to: nat)
    requires at < to && Smooth(fails, at, to)
    ensures !fails(at) && Smooth(fails, at + 1, to)
  {
  }

  /** Whatever fails, a batch changes only what a batch may change, and what it reports is stored. */
  lemma ListedRunMeaning(config: Config, env: Environment, events: seq<Id>, now: int,
                         a: View, at: nat, r: Result<seq<Assignment>, LoopError>, b: View, to: nat)
    requires Ledger(a.db) && Queued(a.db.log, events) && ListedRun(config, env, events, now, a, at, r, b, to)
    ensures Processing(a.db, b.db) && OthersKept(a.db.log, b.db.log, events)
    ensures r.Ok? ==> forall x :: x in r.value ==>
              x.event in events && AssignedNow(a.db.log, b.db.log, b.db.contexts, x)
    ensures r.Ok? && |r.value| == |events| ==> Handled(b.db, events, |events|)
  {
    if env.fails(at) {
      NothingProcessed(a.db);
    } else {
      var active, centroids :| IsListing(a.db.contexts, active)
        && AllRun(config, env, events, active, now, View(a.db, centroids), at + 1, r, b, to);
      AllRunMeaning(config, env, events, active, now, View(a.db, centroids), at + 1, r, b, to);
    }
  }

  lemma AllRunMeaning(config: Config, env: Environment, events: seq<Id>, active: seq<(Id, Context)>, now: int,
                      a: View, at: nat, r: Result<seq<Assignment>, LoopError>, b: View, to: nat)
    requires Ledger(a.db) && Queued(a.db.log, events) && AllRun(config, env, events, active, now, a, at, r, b, to)
    ensures Processing(a.db, b.db) && OthersKept(a.db.log, b.db.log, events)
    ensures r.Ok? ==> forall x :: x in r.value ==>
              x.event in events && AssignedNow(a.db.log, b.db.log, b.db.contexts, x)
    ensures r.Ok? && |r.value| == |events| ==> Handled(b.db, events, |events|)
  {
    match r {
      case Ok(value) =>
        var rs :| BatchRuns(config, env, events, active, now, a, at, rs, b, to) && value == Reported(events, rs);
        assert events[..|events|] == events;
        BatchSoFar(config, env, events, active, now, a, at, |events|, rs, b, to);
        BatchResult(a.db, b.db, events, value, |value| == |events|);
      case Err(error) =>
        var n: nat, rs, mid, between: nat :|
          StopsAt(config, env, events, active, now, a, at, n, rs, mid, between, error, b, to);
        BatchSoFar(config, env, events, active, now, a, at, n, rs, mid, between);
        SoFarMeaning(a.db, mid.db, events, n, Reported(events[..n], rs));
        ProcessingTrans(a.db, mid.db, b.db);
        OthersStayKept(a.db.log, mid.db, b.db, events, n, if error.StorageFailed? then Failed else Panicked);
    }
  }

  /**
   Without a failed storage call a batch that does not panic assigns exactly the
   events that embed, whatever the others do and however many there are, and
   reports exactly them, in order.
   */
  lemma SmoothBatchAssigns(config: Config, env: Environment, events: seq<Id>, now: int,
                           a: View, at: nat, value: seq<Assignment>, b: View, to: nat)
    requires Ledger(a.db) && Queued(a.db.log, events) && ListedRun(config, env, events, now, a, at, Ok(value), b, to)
    requires Smooth(env.fails, at, to)
    ensures AssignsWhatEmbeds(config, env, a.db.log, b.db.log, events)
    ensures AllStoredIn(a.db.log, events) && EventsOf(value) == Embeddable(config, env, a.db.log, events)
  {
    var active, centroids :| IsListing(a.db.contexts, active)
      && AllRun(config, env, events, active, now, View(a.db, centroids), at + 1, Ok(value), b, to);
    SmoothTurnsAssign(config, env, events, active, now, at, View(a.db, centroids), at + 1, value, b, to);
  }

  lemma SmoothTurnsAssign(config: Config, env: Environment, events: seq<Id>, active: seq<(Id, Context)>, now: int,
                          from: nat, a: View, at: nat, value: seq<Assignment>, b: View, to: nat)
    requires Ledger(a.db) && Queued(a.db.log, events) && from <= at && Smooth(env.fails, from, to)
    requires AllRun(config, env, events, active, now, a, at, Ok(value), b, to)
    ensures AssignsWhatEmbeds(config, env, a.db.log, b.db.log, events)
    ensures AllStoredIn(a.db.log, events) && EventsOf(value) == Embeddable(config, env, a.db.log, events)
  {
    var rs :| BatchRuns(config, env, events, active, now, a, at, rs, b, to) && value == Reported(events, rs);
    assert events[..|events|] == events;
    BatchSoFar(config, env, events, active, now, a, at, |events|, rs, b, to);
    SmoothJoin(env.fails, from, at, to);
    BatchAssigns(config, env, events, active, now, a, at, |events|, rs, b, to);
    ReportedAre(config, env, a.db.log, events, rs);
  }

  /** A listed event has a context afterwards exactly if it embeds. */
  ghost predicate AssignsWhatEmbeds(config: Config, env: Environment, before: map<Id, LogRow>, after: map<Id, LogRow>,
                                    events: seq<Id>)
  {
    forall k :: 0 <= k < |events| ==>
      && events[k] in before && events[k] in after
      && (after[events[k]].workContext.Some? <==> EventEmbeds(config, env, before[events[k]]))
  }

  /** What a batch over recent events promises, whatever fails and when nothing does. */
  lemma RecentRunMeaning(config: Config, env: Environment, since: int, now: int, a: View, at: nat, listed: seq<Id>,
                         r: Result<seq<Assignment>, LoopError>, b: View, to: nat)
    requires Ledger(a.db) && RecentRun(config, env, since, now, a, at, listed, r, b, to) && at < to
    ensures if env.fails(at) then listed == []
              else Lists(listed, Unassigned(a.db.log, since), OldestFirst(a.db.log), QUERY_LIMIT)
    ensures Processing(a.db, b.db) && OthersKept(a.db.log, b.db.log, listed)
    ensures r.Ok? ==> forall x :: x in r.value ==>
              x.event in listed && AssignedNow(a.db.log, b.db.log, b.db.contexts, x)
    ensures Smooth(env.fails, at, to) && r.Ok? ==>
              && AssignsWhatEmbeds(config, env, a.db.log, b.db.log, listed)
              && AllStoredIn(a.db.log, listed) && EventsOf(r.value) == Embeddable(config, env, a.db.log, listed)
    ensures r.Ok? && |r.value| == |listed| && |Unassigned(a.db.log, since)| < QUERY_LIMIT ==>
              Unassigned(b.db.log, since) == {}
  {
    hide AssignsWhatEmbeds, AllStoredIn, AssignedNow, Processing, ListedRun, Ledger;
    NothingProcessed(a.db);
    NothingListed(config, env, a.db.log);
    if !env.fails(at) {
      QueryMeaning(a.db.log, since, listed);
      if listed != [] {
        ListedRunMeaning(config, env, listed, now, a, at + 1, r, b, to);
        if r.Ok? && Smooth(env.fails, at, to) {
          SmoothSplit(env.fails, at, to);
          SmoothBatchAssigns(config, env, listed, now, a, at + 1, r.value, b, to);
        }
        if r.Ok? && |r.value| == |listed| && |Unassigned(a.db.log, since)| < QUERY_LIMIT {
          NothingLeft(a.db, b.db, since, listed);
        }
      }
    }
  }

  // ---- The batch loop, turn by turn ----

  /** What the loop knows after n turns. */
  ghost predicate Looping(config: Config, env: Environment, events: seq<Id>, active: seq<(Id, Context)>, now: int,
                          a: View, x: seq<Access>, at: nat, n: nat,
                          rs: seq<Outcome>, done: seq<Assignment>, clean: bool,
                          b: View, y: seq<Access>, to: nat)
  {
    && Ledger(a.db) && Queued(a.db.log, events) && n <= |events| && |rs| == n && at <= to
    && BatchRuns(config, env, events[..n], active, now, a, at, rs, b, to)
    && done == Reported(events[..n], rs)
    && (Smooth(env.fails, at, to) ==> Accounted(a.db, x, b.db, y))
    && (clean ==> Smooth(env.fails, at, to) && |done| == n)
    && (Smooth(env.fails, at, to) && EmbedderUp(env) ==> clean)
  }

  lemma LoopStarts(config: Config, env: Environment, events: seq<Id>, active: seq<(Id, Context)>, now: int,
                   a: View, x: seq<Access>, at: nat)
    requires Ledger(a.db) && Queued(a.db.log, events)
    ensures Looping(config, env, events, active, now, a, x, at, 0, [], [], true, a, x, at)
  {
    NoTurns(config, env, events, active, now, a, at);
    NothingReported(events);
    NothingToAccount(a.db, x);
    SmoothStep(env.fails, at, at);
  }

  lemma LoopNext(config: Config, env: Environment, events: seq<Id>, active: seq<(Id, Context)>, now: int,
                 a: View, x: seq<Access>, at: nat, n: nat, rs: seq<Outcome>, done: seq<Assignment>, clean: bool,
                 b: View, y: seq<Access>, to: nat)
    requires n < |events| && Looping(config, env, events, active, now, a, x, at, n, rs, done, clean, b, y, to)
    ensures Ledger(b.db) && events[n] in b.db.log && b.db.log[events[n]].workContext.None?
  {
    BatchSoFar(config, env, events, active, now, a, at, n, rs, b, to);
    SoFarMeaning(a.db, b.db, events, n, Reported(events[..n], rs));
  }

  lemma LoopGoesOn(config: Config, env: Environment, events: seq<Id>, active: seq<(Id, Context)>, now: int,
                   a: View, x: seq<Access>, at: nat, n: nat, rs: seq<Outcome>, done: seq<Assignment>, clean: bool,
                   b: View, y: seq<Access>, to: nat, r: Outcome, fine: bool, c: View, z: seq<Access>, end: nat)
    requires n < |events| && Looping(config, env, events, active, now, a, x, at, n, rs, done, clean, b, y, to)
    requires TurnRuns(config, env, events[n], active, now, b, to, r, c, end)
    requires Smooth(env.fails, to, end) ==> Accounted(b.db, y, c.db, z)
    requires events[n] in b.db.log
              && (fine <==> Smooth(env.fails, to, end) && EventEmbeds(config, env, b.db.log[events[n]]))
    requires fine ==> r.Assigned?
    ensures var more := if r.Assigned? then done + [Assignment(events[n], r.id)] else done;
            Looping(config, env, events, active, now, a, x, at, n + 1, rs + [r], more, clean && fine, c, z, end)
  {
    OneMoreTurn(config, env, events, active, now, n, a, at, rs, b, to, r, c, end);
    ReportedSnoc(events, n, rs, r);
    SmoothJoin(env.fails, at, to, end);
    AccountedTrans(a.db, x, b.db, y, c.db, z);
    UpMeansEmbeds(config, env, b.db.log[events[n]]);
  }

  lemma LoopStops(config: Config, env: Environment, events: seq<Id>, active: seq<(Id, Context)>, now: int,
                  a: View, x: seq<Access>, at: nat, n: nat, rs: seq<Outcome>, done: seq<Assignment>, clean: bool,
                  b: View, y: seq<Access>, to: nat, error: LoopError, fine: bool, c: View, z: seq<Access>, end: nat)
    requires n < |events| && Looping(config, env, events, active, now, a, x, at, n, rs, done, clean, b, y, to)
    requires to <= end && Turn(b.db, c.db, events[n], if error.StorageFailed? then Failed else Panicked)
    requires error.StorageFailed? ==> RowWriteFails(config, env, events[n], active, now, b, to, c, end)
    requires error.TaskPanicked? && Smooth(env.fails, to, end) ==>
              Takes(config, env, events[n], active, now, b, Panicked, c)
    requires Smooth(env.fails, to, end) ==> Accounted(b.db, y, c.db, z)
    requires events[n] in b.db.log
              && (fine <==> Smooth(env.fails, to, end) && EventEmbeds(config, env, b.db.log[events[n]]))
    requires error.StorageFailed? || config.assignmentThreshold <= 0.0
    ensures AllRun(config, env, events, active, now, a, at, Err(error), c, end)
    ensures Honest(config, env, |events|, a, x, at, Err(error), clean && fine, c, z, end)
  {
    if error.StorageFailed? { SmoothStep(env.fails, to, end - 1); }
    Stopped(config, env, events, active, now, a, at, n, rs, b, to, error, c, end);
    SmoothJoin(env.fails, at, to, end);
    AccountedTrans(a.db, x, b.db, y, c.db, z);
    UpMeansEmbeds(config, env, b.db.log[events[n]]);
  }

  lemma LoopEnds(config: Config, env: Environment, events: seq<Id>, active: seq<(Id, Context)>, now: int,
                 a: View, x: seq<Access>, at: nat, rs: seq<Outcome>, done: seq<Assignment>, clean: bool,
                 b: View, y: seq<Access>, to: nat)
    requires Looping(config, env, events, active, now, a, x, at, |events|, rs, done, clean, b, y, to)
    ensures AllRun(config, env, events, active, now, a, at, Ok(done), b, to)
    ensures Honest(config, env, |events|, a, x, at, Ok(done), clean, b, y, to)
  {
    AllTurns(config, env, events, active, now, a, at, rs, done, b, to);
  }

  /**
   What a batch of n events promises: the books are kept when no call fails, it is
   clean when the embedder is up too, and then every event was assigned; only a
   threshold that is not positive lets it panic.
   */
  ghost predicate Honest(config: Config, env: Environment, n: nat, a: View, x: seq<Access>, at: nat,
                         r: Result<seq<Assignment>, LoopError>, clean: bool, b: View, y: seq<Access>, to: nat)
  {
    && at <= to
    && (clean ==> Smooth(env.fails, at, to) && (r.Ok? ==> |r.value| == n))
    && (Smooth(env.fails, at, to) && EmbedderUp(env) ==> clean)
    && (Smooth(env.fails, at, to) ==> Accounted(a.db, x, b.db, y) && (r.Ok? || r.error == TaskPanicked))
    && (r == Err(TaskPanicked) ==> config.assignmentThreshold <= 0.0)
  }

  lemma HonestMeaning(config: Config, env: Environment, n: nat, a: View, x: seq<Access>, at: nat,
                      r: Result<seq<Assignment>, LoopError>, clean: bool, b: View, y: seq<Access>, to: nat)
    requires Honest(config, env, n, a, x, at, r, clean, b, y, to)
    ensures at <= to && (clean ==> Smooth(env.fails, at, to) && (r.Ok? ==> |r.value| == n))
    ensures Smooth(env.fails, at, to) && EmbedderUp(env) ==> clean
    ensures Smooth(env.fails, at, to) ==> Accounted(a.db, x, b.db, y) && (r.Ok? || r.error == TaskPanicked)
    ensures r == Err(TaskPanicked) ==> config.assignmentThreshold <= 0.0
  {
  }

  lemma HonestFailure(config: Config, env: Environment, n: nat, a: View, x: seq<Access>, at: nat)
    requires env.fails(at)
    ensures Honest(config, env, n, a, x, at, Err(StorageFailed), false, a, x, at + 1)
  {
    SmoothStep(env.fails, at, at);
  }

  lemma HonestIdle(config: Config, env: Environment, a: View, x: seq<Access>, at: nat)
    requires Ledger(a.db) && !env.fails(at)
    ensures Honest(config, env, 0, a, x, at, Ok([]), true, a, x, at + 1)
  {
    SmoothStep(env.fails, at, at);
    NothingToAccount(a.db, x);
  }

  /** One more successful call in front; a batch may also be called unclean for an embedding that failed before it. */
  lemma HonestEarlier(config: Config, env: Environment, n: nat, a: View, warm: View, x: seq<Access>, at: nat,
                      r: Result<seq<Assignment>, LoopError>, clean: bool, embedded: bool,
                      b: View, y: seq<Access>, to: nat)
    requires !env.fails(at) && Honest(config, env, n, warm, x, at + 1, r, clean, b, y, to)
    requires warm.db == a.db && (EmbedderUp(env) ==> embedded)
    ensures Honest(config, env, n, a, x, at, r, clean && embedded, b, y, to)
  {
    SmoothStep(env.fails, at, at);
    SmoothJoin(env.fails, at, at + 1, to);
  }

  // ---- A batch, put together ----

  // ---- A batch, put together ----

  lemma RecentFails(config: Config, env: Environment, since: int, now: int, a: View, at: nat, to: nat)
    requires env.fails(at) && to == at + 1
    ensures RecentRun(config, env, since, now, a, at, [], Err(StorageFailed), a, to)
  {
  }

  lemma RecentListed(config: Config, env: Environment, since: int, now: int, a: View, at: nat, listed: seq<Id>,
                     r: Result<seq<Assignment>, LoopError>, b: View, to: nat)
    requires !env.fails(at) && Lists(listed, Unassigned(a.db.log, since), OldestFirst(a.db.log), QUERY_LIMIT)
    requires listed != [] && ListedRun(config, env, listed, now, a, at + 1, r, b, to)
    ensures RecentRun(config, env, since, now, a, at, listed, r, b, to)
  {
  }

  lemma RecentIdle(config: Config, env: Environment, since: int, now: int, a: View, at: nat, listed: seq<Id>, to: nat)
    requires !env.fails(at) && Lists(listed, Unassigned(a.db.log, since), OldestFirst(a.db.log), QUERY_LIMIT)
    requires listed == [] && to == at + 1
    ensures RecentRun(config, env, since, now, a, at, listed, Ok([]), a, to)
  {
  }
}
