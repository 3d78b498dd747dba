/**
 The inference engine and its tick loop, over the tables as fields. Storage calls
 are numbered as they are made; which of them fail, and which texts fail to
 embed, is an input. `clean` reports that none did.
 */
module Engine {
  import opened Basics
  import opened Text
  import opened Listing
  import opened Vectors
  import opened LinkRows
  import opened CoAccess
  import opened MergePass
  import opened Scoring
  import opened Tables
  import opened TypeVote
  import opened InferenceModel
  import opened InferenceSpec
  import opened InferenceTicks

  class ContextInferenceEngine {
    const config: Config
    const env: Environment

    var contexts: map<Id, Context>
    var log: map<Id, LogRow>
    var resources: set<Row<Relevance>>
    var actions: set<Row<int>>
    var edges: Edges
    var merges: seq<Pair>
    var issued: set<Id>
    ghost var owed: map<Id, nat>
    /** The resource links made, in order. */
    ghost var accesses: seq<Access>
    var centroids: map<Id, Vec>
    /** The number of the next storage call. */
    var calls: nat

    constructor (config: Config, env: Environment)
      ensures this.config == config && this.env == env
      ensures Tables() == Db(map[], map[], {}, {}, map[], [], {}, map[]) && centroids == map[]
      ensures Ledger(Tables()) && CacheSafe() && Meshed(Links()) && accesses == []
    {
      this.config, this.env := config, env;
      contexts, log, resources, actions := map[], map[], {}, {};
      edges, merges, issued, owed, centroids, calls := map[], [], {}, map[], map[], 0;
      accesses := [];
    }

    ghost function Tables(): Db
      reads this
    {
      Db(contexts, log, resources, actions, edges, merges, issued, owed)
    }

    ghost function Now(): View
      reads this
    {
      View(Tables(), centroids)
    }

    ghost function Links(): Graph
      reads this
    {
      Graph(edges, resources)
    }

    /** Only active contexts have a cached centroid. */
    ghost predicate CacheSafe()
      reads this
    {
      centroids.Keys <= ActiveIds(contexts)
    }

    /** No storage call since number `start` failed. */
    ghost predicate SmoothSince(start: nat)
      reads this
    {
      Smooth(env.fails, start, calls)
    }

    /** One storage call. */
    method Call() returns (ok: bool)
      modifies `calls
      ensures calls == old(calls) + 1 && (ok <==> !env.fails(old(calls)))
    {
      ok := !env.fails(calls);
      calls := calls + 1;
    }

    // ---- Single statements; each may fail and then changes nothing ----

    method InsertContext(id: Id, ctx: Context) returns (ok: bool)
      modifies `contexts, `issued, `owed, `calls
      ensures calls == old(calls) + 1 && (ok <==> !env.fails(old(calls)))
      ensures Tables() == if ok then Apply(old(Tables()), Stmt.InsertContext(id, ctx)) else old(Tables())
    {
      ok := Call();
      if ok {
        owed := Owe(Tables(), id);
        contexts, issued := contexts[id := ctx], issued + {id};
      }
    }

    method UpdateStats(id: Id, now: int, duration: int) returns (ok: bool)
      modifies `contexts, `owed, `calls
      ensures calls == old(calls) + 1 && (ok <==> !env.fails(old(calls)))
      ensures Tables() == if ok then Apply(old(Tables()), Stmt.UpdateStats(id, now, duration)) else old(Tables())
    {
      ok := Call();
      if ok && id in contexts {
        owed := Owe(Tables(), id);
        contexts := contexts[id := Counted(contexts[id], now, duration)];
      }
    }

    method WriteContext(id: Id, ctx: Context) returns (ok: bool)
      modifies `contexts, `calls
      ensures calls == old(calls) + 1 && (ok <==> !env.fails(old(calls)))
      ensures Tables() == if ok then Apply(old(Tables()), Stmt.WriteContext(id, ctx)) else old(Tables())
    {
      ok := Call();
      if ok && id in contexts {
        contexts := contexts[id := ctx];
      }
    }

    method UpdateConfidence(id: Id, confidence: real) returns (ok: bool)
      modifies `contexts, `calls
      ensures calls == old(calls) + 1 && (ok <==> !env.fails(old(calls)))
      ensures Tables() == if ok then Apply(old(Tables()), Stmt.UpdateConfidence(id, confidence)) else old(Tables())
    {
      ok := Call();
      if ok && id in contexts {
        contexts := contexts[id := contexts[id].(confidence := confidence)];
      }
    }

    method SetWorkContext(event: Id, id: Id) returns (ok: bool)
      modifies `log, `owed, `calls
      ensures calls == old(calls) + 1 && (ok <==> !env.fails(old(calls)))
      ensures Tables() == if ok then Apply(old(Tables()), Stmt.SetWorkContext(event, id)) else old(Tables())
    {
      ok := Call();
      if ok && event in log {
        owed := owed[id := if Owed(Tables(), id) > 0 then Owed(Tables(), id) - 1 else 0];
        log := log[event := log[event].(workContext := Some(id))];
      }
    }

    method LinkResource(id: Id, resource: Id, now: int) returns (ok: bool)
      requires KeyUnique(resources)
      modifies `resources, `calls
      ensures calls == old(calls) + 1 && (ok <==> !env.fails(old(calls)))
      ensures Tables() == if ok then Apply(old(Tables()), Stmt.LinkResource(id, resource, now)) else old(Tables())
    {
      ok := Call();
      if ok {
        resources := Link(resources, id, resource, 0.5, now);
      }
    }

    /** The merge transaction: all of its statements, or none. */
    method Merge(keep: Id, remove: Id) returns (ok: bool)
      requires KeyUnique(resources) && KeyUnique(actions) && keep != remove
      modifies `resources, `actions, `contexts, `merges, `calls
      ensures calls == old(calls) + 1 && (ok <==> !env.fails(old(calls)))
      ensures Tables() == if ok then Apply(old(Tables()), MergeContexts(keep, remove)) else old(Tables())
    {
      var r := UpdateOrIgnore(resources, keep, remove);
      var a := UpdateOrIgnore(actions, keep, remove);
      r := DeleteOwner(r, remove);
      a := DeleteOwner(a, remove);
      ok := Call();
      if ok {
        resources, actions := r, a;
        contexts := contexts - {remove};
        merges := merges + [Pair(keep, remove)];
      }
    }

    method ArchiveDormant(cutoff: int) returns (ok: bool, affected: nat)
      modifies `contexts, `calls
      ensures calls == old(calls) + 1 && (ok <==> !env.fails(old(calls)))
      ensures Tables() == if ok then Apply(old(Tables()), Stmt.ArchiveDormant(cutoff)) else old(Tables())
      ensures ok ==> affected == |old(ActiveIds(contexts)) - ActiveIds(contexts)|
      ensures !ok ==> affected == 0
      ensures affected == 0 ==> ActiveIds(contexts) == old(ActiveIds(contexts))
    {
      hide ActiveIds;
      affected := 0;
      ok := Call();
      if ok {
        var before := contexts;
        contexts := map c | c in contexts :: Dormant(contexts[c], cutoff);
        affected := |ActiveIds(before) - ActiveIds(contexts)|;
        if affected == 0 { NothingArchived(before, contexts, cutoff); }
      }
    }

    // ---- Reads ----

    /** SELECT .. WHERE status = 'active' ORDER BY last_active_at DESC. */
    method ListActive() returns (ok: bool, active: seq<(Id, Context)>)
      modifies `calls
      ensures calls == old(calls) + 1 && (ok <==> !env.fails(old(calls)))
      ensures if ok then IsListing(contexts, active) else active == []
    {
      active := [];
      ok := Call();
      if ok {
        var ids := OrderedList(ActiveIds(contexts), NewestFirst(contexts), |ActiveIds(contexts)| + 1);
        AllAreListed(contexts, ids);
        var rows := contexts;
        active := seq(|ids|, i requires 0 <= i < |ids| && ids[i] in rows => (ids[i], rows[ids[i]]));
        RowsOfListed(contexts, ids, active);
      }
    }

    /** list_resource_ids_for_context; its callers read a failure as no resources. */
    method ListResourceIds(id: Id) returns (ok: bool, ids: set<Id>)
      modifies `calls
      ensures calls == old(calls) + 1 && (ok <==> !env.fails(old(calls)))
      ensures ids == if ok then Items(resources, id) else {}
    {
      ok := Call();
      ids := if ok then Items(resources, id) else {};
    }

    /** WHERE work_context_id IS NULL AND timestamp >= since ORDER BY timestamp ASC LIMIT 500. */
    method QueryUnassigned(since: int) returns (ok: bool, events: seq<Id>)
      modifies `calls
      ensures calls == old(calls) + 1 && (ok <==> !env.fails(old(calls)))
      ensures ok ==> Lists(events, Unassigned(log, since), OldestFirst(log), QUERY_LIMIT)
      ensures !ok ==> events == []
    {
      events := [];
      ok := Call();
      if ok {
        events := OrderedList(Unassigned(log, since), OldestFirst(log), QUERY_LIMIT);
      }
    }

    /** A ULID: an id never issued before. */
    method NewUlid() returns (id: Id)
      ensures id !in issued
    {
      id := "";
      var todo := issued;
      while todo != {}
        invariant todo <= issued
        invariant forall u :: u in issued - todo ==> |u| < |id|
        decreases todo
      {
        var u :| u in todo;
        if |u| >= |id| { id := u + "0"; }
        todo := todo - {u};
      }
      forall u | u in issued ensures u != id {
        assert u in issued - todo;
      }
    }

    // ---- Centroids ----

    method UpdateCentroid(id: Id, newVec: Vec)
      modifies `centroids
      ensures centroids == old(centroids)[id := Absorb(if id in old(centroids) then old(centroids)[id] else newVec,
                                                       newVec, config.centroidLearningRate, env.sqrt)]
    {
      var c := if id in centroids then centroids[id] else newVec;
      var buffer := new real[|c|](i requires 0 <= i < |c| => c[i]);
      assert buffer[..] == c;
      UpdateInPlace(buffer, newVec, config.centroidLearningRate, env.sqrt);
      centroids := centroids[id := buffer[..]];
    }

    /** Caches an embedding for every listed context that has none. */
    method EnsureCentroids(active: seq<(Id, Context)>) returns (clean: bool)
      requires IsListing(contexts, active)
      modifies `centroids
      ensures Bootstrapped(old(centroids), centroids, contexts, env)
      ensures clean <==> AllCached(old(centroids), contexts, env)
    {
      hide IsListing, Bootstrapped, AllCached, Embedding;
      clean := true;
      EmbeddingStarts(env, contexts, centroids, active);
      for i := 0 to |active|
        invariant Embedding(env, contexts, old(centroids), centroids, active, i, clean)
      {
        var (id, ctx) := active[i];
        EmbeddingGoesOn(env, contexts, old(centroids), centroids, active, i, clean);
        if id !in centroids {
          match env.embedContext(ctx) {
            case Some(vec) => centroids := centroids[id := vec];
            case None => clean := false;
          }
        }
      }
      EmbeddingDone(env, contexts, old(centroids), centroids, active, clean);
    }

    // ---- Assigning one event ----

    /** The resource is the event's, or one with a fresh id; without a resource name there is nothing to do. */
    method LinkEventResources(event: LogRow, id: Id, now: int) returns (ok: bool, clean: bool, resource: Option<Id>)
      requires KeyUnique(resources)
      modifies `resources, `edges, `accesses, `issued, `calls
      ensures old(calls) <= calls && (clean <==> SmoothSince(old(calls)))
      ensures Assigning(old(Tables()), Tables())
      ensures clean ==> ok
      ensures resource.Some? <==> event.resourceName.Some?
      ensures resource.Some? && event.resourceId.Some? ==> resource == event.resourceId && issued == old(issued)
      ensures resource.Some? && event.resourceId.None? ==>
                resource.value !in old(issued) && issued == old(issued) + {resource.value}
      ensures resource.None? ==> Tables() == old(Tables())
      ensures clean && resource.Some? ==>
                resources == Link(old(resources), id, resource.value, 0.5, now)
                && edges == Connected(old(edges), Items(old(resources), id), resource.value)
      ensures clean ==> Linked(event, id, now, old(Tables()), resource, Tables())
      ensures clean && resource.Some? ==> accesses == old(accesses) + [Access(id, resource.value, now)]
      ensures clean ==> Grown(old(Links()), old(accesses), Links(), accesses)
    {
      NotGrown(Links(), accesses);
      hide Smooth, Grown, Link, Connected, Assigning, KeyUnique, Items;
      ghost var first, start := calls, Tables();
      AssigningRefl(start);
      SmoothStep(env.fails, first, first);
      ok, clean, resource := true, true, None;
      if event.resourceName.Some? {
        resource := event.resourceId;
        if resource.None? {
          var newId := NewUlid();
          resource := Some(newId);
          issued := issued + {newId};
        }
        LinkingAssigns(start, Tables());
        ok := Call();  // the work_resources upsert
        if !ok { return false, false, resource; }
        ok, clean := ConnectAndLink(id, resource.value, now);
        LinkingAssigns(start, Tables());
        SmoothJoin(env.fails, first, first + 1, calls);
      }
    }

    /** Edges from the resource to the members, then the membership itself. */
    method ConnectAndLink(id: Id, resource: Id, now: int) returns (ok: bool, clean: bool)
      requires KeyUnique(resources)
      modifies `resources, `edges, `accesses, `calls
      ensures old(calls) <= calls && (clean <==> SmoothSince(old(calls)))
      ensures KeyUnique(resources)
      ensures resources == old(resources) || resources == Link(old(resources), id, resource, 0.5, now)
      ensures clean ==> ok
      ensures clean ==> resources == Link(old(resources), id, resource, 0.5, now)
      ensures clean ==> edges == Connected(old(edges), Items(old(resources), id), resource)
      ensures clean ==> accesses == old(accesses) + [Access(id, resource, now)]
      ensures clean ==> Grown(old(Links()), old(accesses), Links(), accesses)
    {
      hide Grown, KeyUnique, Link, Connected, Items, Smooth;
      ghost var first := calls;
      SmoothStep(env.fails, first, first);
      SmoothStep(env.fails, first, first + 1);
      var members;
      ok, members := ListResourceIds(id);
      if !ok { return false, false; }
      edges, clean, calls := ConnectToMembers(edges, members, resource, env.fails, calls);
      SmoothJoin(env.fails, first, first + 1, calls);
      SmoothStep(env.fails, first, calls);
      LinkKeepsKey(resources, id, resource, now);
      ok := LinkResource(id, resource, now);
      clean := clean && ok;
      if ok {
        accesses := accesses + [Access(id, resource, now)];
        GrownOnce(old(Links()), old(accesses), Access(id, resource, now));
      }
    }

    /** Tags, description and colour; the counts are written back as read. */
    method AutoEnrich(id: Id) returns (clean: bool)
      modifies `contexts, `calls
      ensures old(calls) <= calls && (clean <==> SmoothSince(old(calls)))
      ensures Assigning(old(Tables()), Tables())
      ensures Refreshed(old(contexts), contexts, id)
      ensures id in contexts ==> contexts[id].confidence == old(contexts)[id].confidence
      ensures clean && id in contexts ==> contexts[id].decor == env.enrich(old(contexts)[id], Items(resources, id))
    {
      hide Ledger, KeyUnique, Smooth;
      ghost var first := calls;
      SmoothStep(env.fails, first, first);
      SmoothStep(env.fails, first, first + 1);
      SmoothStep(env.fails, first, first + 2);
      clean := Call();  // the read
      if !clean || id !in contexts { return; }
      var ctx := contexts[id];
      var members;
      clean, members := ListResourceIds(id);
      var decor := env.enrich(ctx, members);
      if decor != ctx.decor {
        var ok := WriteContext(id, ctx.(decor := decor));
        clean := clean && ok;
      }
      if Ledger(old(Tables())) { LedgerStep(old(Tables()), Stmt.WriteContext(id, ctx.(decor := decor))); }
    }

    /** Only an event with a resource id has the contexts' resources read. */
    method ScoreAll(event: LogRow, active: seq<(Id, Context)>, vec: Option<Vec>)
      returns (clean: bool, scores: seq<real>)
      modifies `calls
      ensures old(calls) <= calls && (clean <==> SmoothSince(old(calls)))
      ensures |scores| == |active|
      ensures clean ==> scores == ScoresOver(config, env, centroids, resources, event, active, vec)
    {
      hide Smooth;
      ghost var first := calls;
      SmoothStep(env.fails, first, first);
      clean, scores := true, [];
      for i := 0 to |active|
        invariant first <= calls && (clean <==> SmoothSince(first))
        invariant |scores| == i
        invariant clean ==> forall k :: 0 <= k < i ==>
                  scores[k] == ScoresOver(config, env, centroids, resources, event, active, vec)[k]
      {
        var ok, members := true, {};
        SmoothStep(env.fails, first, calls);
        if event.resourceId.Some? { ok, members := ListResourceIds(active[i].0); }
        clean := clean && ok;
        var semantic := Semantic(env, centroids, vec, active[i].0);
        scores := scores + [ScoreOf(config, env, event, active[i], semantic, members)];
      }
    }

    /**
     Assigns one event to the best listed context or to a new one. Whatever
     fails, at most one count is left unmatched, and then the event stays unassigned.
     */
    method AssignEvent(event: LogRow, active: seq<(Id, Context)>, now: int)
      returns (r: Outcome, clean: bool)
      requires Ledger(Tables())
      requires forall a :: a in active ==> a.0 in ActiveIds(contexts)
      modifies `contexts, `resources, `edges, `accesses, `issued, `owed, `centroids, `calls
      ensures old(calls) <= calls && (clean <==> SmoothSince(old(calls)) && EventEmbeds(config, env, event))
      ensures Assigning(old(Tables()), Tables())
      ensures old(CacheSafe()) ==> CacheSafe()
      ensures SmoothSince(old(calls)) ==> Grown(old(Links()), old(accesses), Links(), accesses)
      ensures clean ==> !r.Failed?
      ensures r.Assigned? ==> r.id in ActiveIds(contexts) && owed == Owe(old(Tables()), r.id)
      ensures SmoothSince(old(calls)) && r.Failed? ==> owed == old(owed)
      ensures r.Failed? ==> owed == old(owed) || exists c :: owed == Owe(old(Tables()), c)
      ensures r.Panicked? ==>
                Tables() == old(Tables()) && centroids == old(centroids) && config.assignmentThreshold <= 0.0
      ensures r.Assigned? && r.isNew ==>
                r.id !in old(contexts) && contexts == old(contexts)[r.id := NewContext(env, event, now)]
      ensures r.Assigned? && !r.isNew ==>
                exists a :: a in active && a.0 == r.id && Reused(old(contexts), contexts, event, a, now)
      ensures clean ==> FollowsScores(config, env, old(centroids), old(resources), event, active, r)
      ensures r.Assigned? ==> EventEmbeds(config, env, event)
      ensures SmoothSince(old(calls)) ==> Assigns(config, env, event, active, now, old(Now()), r, Now())
    {
      NotGrown(Links(), accesses);
      AssigningRefl(Tables());
      NotEmbedded(config, env, event, active, now, Now());
      hide Ledger, KeyUnique, Grown, Assigning, NewContext, Reused, Smooth, Owe, AssignedAs, Assigns,
           FollowsScores, Decides, ScoresOver;
      ghost var first, start := calls, Now();
      SmoothStep(env.fails, first, first);
      var vec: Option<Vec> := None;
      if config.weights.semantic > 0.0 {
        vec := env.embedEvent(event);
        if vec.None? { return Failed, false; }
      }
      var decision, done;
      ghost var link, seen: Option<Context> := None, None;
      clean, decision := Decide(event, active, vec);
      ghost var mid := calls;
      match decision {
        case Panic => r := Panicked;
        case Reuse(i, score) =>
          done, r, link := AssignToExisting(event, active[i], vec, score, now);
          clean := clean && done;
          seen := Some(active[i].1);
        case Create(score) =>
          done, r, link := AssignToNew(event, vec, score, now);
          clean := clean && done;
      }
      SmoothJoin(env.fails, first, mid, calls);
      if clean { DecisionFollows(config, env, start.centroids, start.db.resources, event, active, vec, decision, r); }
      if clean && r.Panicked? { PanicAssigns(config, env, event, active, now, start); }
      if clean && r.Assigned? {
        DecisionAssigns(config, env, event, active, now, start, r.id, seen, r.score, link, Now());
      }
    }

    /** The scores and the choice among them. */
    method Decide(event: LogRow, active: seq<(Id, Context)>, vec: Option<Vec>) returns (clean: bool, decision: Decision)
      modifies `calls
      ensures old(calls) <= calls && (clean <==> SmoothSince(old(calls)))
      ensures decision.Reuse? ==> decision.index < |active|
      ensures decision.Panic? ==> config.assignmentThreshold <= 0.0
      ensures clean ==> Decides(ScoresOver(config, env, centroids, resources, event, active, vec),
                                config.assignmentThreshold, decision)
    {
      hide Smooth;
      var scores;
      clean, scores := ScoreAll(event, active, vec);
      decision := Choose(scores, config.assignmentThreshold);
    }

    method AssignToExisting(event: LogRow, chosen: (Id, Context), vec: Option<Vec>, score: real, now: int)
      returns (clean: bool, r: Outcome, ghost link: Option<Id>)
      requires Ledger(Tables()) && chosen.0 in ActiveIds(contexts)
      modifies `contexts, `resources, `edges, `accesses, `issued, `owed, `centroids, `calls
      ensures old(calls) <= calls && (clean <==> SmoothSince(old(calls)))
      ensures Assigning(old(Tables()), Tables())
      ensures old(CacheSafe()) ==> CacheSafe()
      ensures clean ==> Grown(old(Links()), old(accesses), Links(), accesses)
      ensures clean ==> !r.Failed?
      ensures r.Assigned? ==> r == Assigned(chosen.0, false, score) && owed == Owe(old(Tables()), chosen.0)
      ensures r.Assigned? ==> Reused(old(contexts), contexts, event, chosen, now)
      ensures centroids == if vec.None? then old(centroids) else
                var was := if chosen.0 in old(centroids) then old(centroids)[chosen.0] else vec.value;
                old(centroids)[chosen.0 := Absorb(was, vec.value, config.centroidLearningRate, env.sqrt)]
      ensures r.Failed? ==> owed == old(owed) || owed == Owe(old(Tables()), chosen.0)
      ensures !r.Panicked?
      ensures clean ==>
                AssignedAs(config, env, event, vec, now, old(Now()), chosen.0, Some(chosen.1), score, link, Now())
    {
      hide Ledger, KeyUnique, Grown, Linked, AssignedAs, WeighedDb, Elapsed, Smooth, Counted, Refreshed;
      ghost var start, first := Now(), calls;
      var id := chosen.0;
      if vec.Some? { UpdateCentroid(id, vec.value); }
      ghost var before := Tables();
      var ok;
      ok, clean, link := CountAndLink(event, id, now, Elapsed(event, chosen.1));
      if !ok { return false, Failed, None; }
      ghost var linked := Tables();
      var refreshed;
      ghost var mid := calls;
      ok, refreshed := RefreshContext(id, score);
      SmoothJoin(env.fails, first, mid, calls);
      AssigningTrans(before, linked, Tables());
      if !ok { return false, Failed, None; }
      clean := clean && refreshed;
      r := Assigned(id, false, score);
      if clean { ReuseIsAssigned(config, env, event, vec, now, start, id, chosen.1, score, link, linked, Now()); }
    }

    /** update_stats, then the resource links: the count can be raised without the links. */
    method CountAndLink(event: LogRow, id: Id, now: int, duration: int)
      returns (ok: bool, clean: bool, ghost link: Option<Id>)
      requires Ledger(Tables()) && id in contexts
      modifies `contexts, `resources, `edges, `accesses, `issued, `owed, `calls
      ensures old(calls) <= calls && (clean <==> SmoothSince(old(calls)))
      ensures Assigning(old(Tables()), Tables())
      ensures clean ==> Grown(old(Links()), old(accesses), Links(), accesses)
      ensures clean ==> ok
      ensures clean ==> Linked(event, id, now, Apply(old(Tables()), Stmt.UpdateStats(id, now, duration)), link,
                Tables())
      ensures owed == Owe(old(Tables()), id) || (!ok && owed == old(owed))
      ensures ok ==> contexts == old(contexts)[id := Counted(old(contexts)[id], now, duration)]
    {
      assert KeyUnique(resources);
      hide Ledger, KeyUnique, Grown, Assigning, Link, Connected, Items, Smooth, Linked;
      ghost var before, first := Tables(), calls;
      SmoothStep(env.fails, first, first);
      ok := UpdateStats(id, now, duration);
      if !ok { return false, false, None; }
      ghost var counted := Tables();
      AssigningStep(before, Stmt.UpdateStats(id, now, duration));
      var resource;
      ok, clean, resource := LinkEventResources(event, id, now);
      link := resource;
      AssigningTrans(before, counted, Tables());
      SmoothJoin(env.fails, first, first + 1, calls);
    }

    /** The confidence, recomputed from the row read back, then the decorations. */
    method RefreshContext(id: Id, score: real) returns (ok: bool, clean: bool)
      requires Ledger(Tables())
      modifies `contexts, `calls
      ensures old(calls) <= calls && (clean <==> SmoothSince(old(calls)))
      ensures Assigning(old(Tables()), Tables())
      ensures clean ==> ok
      ensures Refreshed(old(contexts), contexts, id)
      ensures ok && id in contexts ==>
                contexts[id].confidence == env.confidence(old(contexts)[id].eventCount, score,
                                                          if env.fails(old(calls)) then 0 else |Items(resources, id)|)
      ensures clean ==> Tables() == WeighedDb(env, old(Tables()), id, true, score)
    {
      hide Ledger, Assigning, Smooth, Items, WeighedDb, Refreshed;
      ghost var before, first := Tables(), calls;
      ok, clean := Reassess(id, score);
      ReassessedIsRefreshed(before.contexts, contexts, id);
      if !ok { return false, false; }
      ghost var mid := calls;
      ghost var scored := Tables();
      var enriched := AutoEnrich(id);
      clean := clean && enriched;
      SmoothJoin(env.fails, first, mid, calls);
      SmoothStep(env.fails, first, first);
      SmoothJoin(env.fails, first, first + 1, calls);
      AssigningTrans(before, scored, Tables());
      RefreshedTrans(before.contexts, scored.contexts, contexts, id);
      if clean { WeighedInTwo(env, before, scored, Tables(), id, score); }
    }

    /** count_for_context reads a failure as zero; only the later calls end the assignment. */
    method Reassess(id: Id, score: real) returns (ok: bool, clean: bool)
      requires Ledger(Tables())
      modifies `contexts, `calls
      ensures old(calls) < calls && (clean <==> SmoothSince(old(calls))) && (clean ==> ok)
      ensures Ledger(Tables()) && Assigning(old(Tables()), Tables())
      ensures contexts == if !(ok && id in old(contexts)) then old(contexts) else
                old(contexts)[id := old(contexts)[id].(
                  confidence := env.confidence(old(contexts)[id].eventCount, score,
                                               if env.fails(old(calls)) then 0 else |Items(resources, id)|))]
    {
      hide Ledger, KeyUnique, Assigning, Smooth, Items;
      ghost var before, first := Tables(), calls;
      AssigningRefl(before);
      SmoothStep(env.fails, first, first);
      SmoothStep(env.fails, first, first + 1);
      SmoothStep(env.fails, first, first + 2);
      var counted := Call();
      var n := if counted then |Items(resources, id)| else 0;
      ok := Call();  // reading the context back
      if ok && id in contexts {
        var confidence := env.confidence(contexts[id].eventCount, score, n);
        ok := UpdateConfidence(id, confidence);
        if ok { AssigningStep(before, Stmt.UpdateConfidence(id, confidence)); }
      }
      clean := counted && ok;
    }

    method AssignToNew(event: LogRow, vec: Option<Vec>, score: real, now: int)
      returns (clean: bool, r: Outcome, ghost link: Option<Id>)
      requires Ledger(Tables())
      modifies `contexts, `resources, `edges, `accesses, `issued, `owed, `centroids, `calls
      ensures old(calls) <= calls && (clean <==> SmoothSince(old(calls)))
      ensures Assigning(old(Tables()), Tables())
      ensures old(CacheSafe()) ==> CacheSafe()
      ensures clean ==> Grown(old(Links()), old(accesses), Links(), accesses)
      ensures clean ==> !r.Failed?
      ensures r.Assigned? ==> r.isNew && r.score == score && r.id !in old(contexts) && r.id in ActiveIds(contexts)
      ensures r.Assigned? ==> owed == Owe(old(Tables()), r.id)
      ensures r.Assigned? ==> contexts == old(contexts)[r.id := NewContext(env, event, now)]
      ensures r.Assigned? ==> centroids == if vec.Some? then old(centroids)[r.id := vec.value] else old(centroids)
      ensures r.Failed? ==> owed == old(owed) || exists c :: owed == Owe(old(Tables()), c)
      ensures !r.Panicked?
      ensures clean ==> AssignedAs(config, env, event, vec, now, old(Now()), r.id, None, score, link, Now())
    {
      assert KeyUnique(resources);
      hide Ledger, KeyUnique, Grown, Smooth, Link, Connected, Linked, Assigning, AssignedAs, NewContext;
      ghost var t0, first, start := Tables(), calls, Now();
      SmoothStep(env.fails, first, first);
      var ok, id := InsertNew(NewContext(env, event, now));
      if !ok { return false, Failed, None; }
      ghost var t1 := Tables();
      if vec.Some? { centroids := centroids[id := vec.value]; }
      var resource;
      ok, clean, resource := LinkEventResources(event, id, now);
      link := resource;
      SmoothJoin(env.fails, first, first + 1, calls);
      AssigningTrans(t0, t1, Tables());
      if !ok { return false, Failed, None; }
      r := Assigned(id, true, score);
      if clean { NewIsAssigned(config, env, event, vec, now, start, id, score, link, Now()); }
    }

    /** A new active context that counts one event. */
    method InsertNew(ctx: Context) returns (ok: bool, id: Id)
      requires Ledger(Tables()) && ctx.eventCount == 1 && ctx.status == Active
      modifies `contexts, `issued, `owed, `calls
      ensures calls == old(calls) + 1 && (ok <==> !env.fails(old(calls)))
      ensures Ledger(Tables()) && Assigning(old(Tables()), Tables())
      ensures id !in old(issued) && id !in old(contexts)
      ensures Tables() == if ok then Apply(old(Tables()), Stmt.InsertContext(id, ctx)) else old(Tables())
    {
      id := NewUlid();
      ghost var before := Tables();
      ok := InsertContext(id, ctx);
      if ok { AssigningStep(before, Stmt.InsertContext(id, ctx)); }
    }

    // ---- The batch ----

    /**
     The unassigned events since a time, one by one, against one snapshot of the
     active contexts. `listed` is what the query returned.
     */
    method ProcessRecentEvents(since: int, now: int)
      returns (r: Result<seq<Assignment>, LoopError>, clean: bool, ghost listed: seq<Id>)
      requires Ledger(Tables())
      modifies `contexts, `log, `resources, `edges, `accesses, `issued, `owed, `centroids, `calls
      ensures old(calls) < calls && (clean ==> SmoothSince(old(calls)))
      ensures SmoothSince(old(calls)) && EmbedderUp(env) ==> clean
      ensures Processing(old(Tables()), Tables())
      ensures old(CacheSafe()) ==> CacheSafe()
      ensures SmoothSince(old(calls)) ==> Accounted(old(Tables()), old(accesses), Tables(), accesses)
      ensures if env.fails(old(calls)) then listed == []
                else Lists(listed, Unassigned(old(log), since), OldestFirst(old(log)), QUERY_LIMIT)
      ensures OthersKept(old(log), log, listed)
      ensures r.Ok? ==> forall a :: a in r.value ==> a.event in listed && AssignedNow(old(log), log, contexts, a)
      ensures r == Err(TaskPanicked) ==> config.assignmentThreshold <= 0.0
      ensures SmoothSince(old(calls)) ==> r.Ok? || r.error == TaskPanicked
      ensures clean && r.Ok? && |Unassigned(old(log), since)| < QUERY_LIMIT ==> Unassigned(log, since) == {}
      ensures SmoothSince(old(calls)) && r.Ok? ==>
                AllStoredIn(old(log), listed) && EventsOf(r.value) == Embeddable(config, env, old(log), listed)
      ensures SmoothSince(old(calls)) && r.Ok? ==> AssignsWhatEmbeds(config, env, old(log), log, listed)
      ensures RecentRun(config, env, since, now, old(Now()), old(calls), listed, r, Now(), calls)
    {
      hide Ledger, Processing, Accounted, Lists, EmbedderUp, Smooth, AssignsWhatEmbeds, AllStoredIn, AssignedNow,
           OthersKept,
           Embeddable, EventsOf, Unassigned, OldestFirst, RecentRun, ActiveIds, Honest;
      ghost var start, first, linked := Now(), calls, accesses;
      r, clean, listed := QueryAndProcess(since, now);
      HonestMeaning(config, env, |listed|, start, linked, first, r, clean, Now(), accesses, calls);
      RecentRunMeaning(config, env, since, now, start, first, listed, r, Now(), calls);
    }

    /** The query, and the batch over what it lists. */
    method QueryAndProcess(since: int, now: int)
      returns (r: Result<seq<Assignment>, LoopError>, clean: bool, ghost listed: seq<Id>)
      requires Ledger(Tables())
      modifies `contexts, `log, `resources, `edges, `accesses, `issued, `owed, `centroids, `calls
      ensures old(calls) < calls && (old(CacheSafe()) ==> CacheSafe())
      ensures Honest(config, env, |listed|, old(Now()), old(accesses), old(calls), r, clean, Now(), accesses, calls)
      ensures RecentRun(config, env, since, now, old(Now()), old(calls), listed, r, Now(), calls)
    {
      hide Ledger, Lists, ListedRun, Unassigned, OldestFirst, Queued, RecentRun, ActiveIds, Honest;
      ghost var start, first, linked := Now(), calls, accesses;
      var ok, events := QueryUnassigned(since);
      listed := events;
      if !ok {
        HonestFailure(config, env, |listed|, start, linked, first);
        RecentFails(config, env, since, now, start, first, calls);
        return Err(StorageFailed), false, listed;
      }
      if events == [] {
        HonestIdle(config, env, start, linked, first);
        RecentIdle(config, env, since, now, start, first, listed, calls);
        return Ok([]), true, listed;
      }
      QueryMeaning(log, since, events);
      r, clean := ProcessListed(events, now);
      HonestEarlier(config, env, |listed|, start, start, linked, first, r, clean, true, Now(), accesses, calls);
      RecentListed(config, env, since, now, start, first, listed, r, Now(), calls);
    }

    /** The active contexts are listed once, and their missing centroids embedded, for the whole batch. */
    method ProcessListed(events: seq<Id>, now: int) returns (r: Result<seq<Assignment>, LoopError>, clean: bool)
      requires Ledger(Tables())
      requires Queued(log, events)
      modifies `contexts, `log, `resources, `edges, `accesses, `issued, `owed, `centroids, `calls
      ensures old(CacheSafe()) ==> CacheSafe()
      ensures old(calls) < calls
      ensures Honest(config, env, |events|, old(Now()), old(accesses), old(calls), r, clean, Now(), accesses, calls)
      ensures ListedRun(config, env, events, now, old(Now()), old(calls), r, Now(), calls)
    {
      hide Ledger, IsListing, EmbedderUp, ActiveIds, Queued, AllRun, Warmed, Honest;
      ghost var first, was, linked := calls, Now(), accesses;
      var ok, active, embedded := ListForBatch();
      ghost var warm := Now();
      if !ok {
        HonestFailure(config, env, |events|, was, linked, first);
        return Err(StorageFailed), false;
      }
      r, clean := ProcessAll(events, active, now);
      HonestEarlier(config, env, |events|, was, warm, linked, first, r, clean, embedded, Now(), accesses, calls);
      assert AllRun(config, env, events, active, now, View(was.db, warm.centroids), first + 1, r, Now(), calls);
      clean := clean && embedded;
    }

    /** The listing of a batch, with the missing centroids embedded when the semantic score needs them. */
    method ListForBatch() returns (ok: bool, active: seq<(Id, Context)>, embedded: bool)
      modifies `centroids, `calls
      ensures calls == old(calls) + 1 && (ok <==> !env.fails(old(calls)))
      ensures if ok then IsListing(contexts, active) && Warmed(config, env, old(Now()), centroids)
              else centroids == old(centroids)
      ensures forall a :: a in active ==> a.0 in ActiveIds(contexts)
      ensures EmbedderUp(env) ==> embedded
      ensures old(CacheSafe()) ==> CacheSafe()
    {
      hide IsListing, Bootstrapped, AllCached, EmbedderUp, ActiveIds;
      embedded := true;
      ok, active := ListActive();
      if !ok { return; }
      ListingMeaning(contexts, active);
      if config.weights.semantic > 0.0 {
        ghost var cached := centroids;
        embedded := EnsureCentroids(active);
        BootstrapMeaning(cached, centroids, contexts, env);
      }
    }

    /** The batch loop. */
    method ProcessAll(events: seq<Id>, active: seq<(Id, Context)>, now: int)
      returns (r: Result<seq<Assignment>, LoopError>, clean: bool)
      requires Ledger(Tables())
      requires Queued(log, events)
      requires forall a :: a in active ==> a.0 in ActiveIds(contexts)
      modifies `contexts, `log, `resources, `edges, `accesses, `issued, `owed, `centroids, `calls
      ensures old(calls) <= calls && (old(CacheSafe()) ==> CacheSafe())
      ensures Honest(config, env, |events|, old(Now()), old(accesses), old(calls), r, clean, Now(), accesses, calls)
      ensures AllRun(config, env, events, active, now, old(Now()), old(calls), r, Now(), calls)
    {
      LoopStarts(config, env, events, active, now, Now(), accesses, calls);
      hide Queued, Ledger, KeyUnique, Accounted, Turn, EmbedderUp, Smooth, ActiveIds, TurnRuns, Takes, RowWriteFails,
           AllRun, EventEmbeds, Looping, Honest;
      ghost var was, linked, first, rs: seq<Outcome> := Now(), accesses, calls, [];
      clean := true;
      var done: seq<Assignment> := [];
      for i := 0 to |events|
        invariant first <= calls
        invariant Looping(config, env, events, active, now, was, linked, first, i, rs, done, clean, Now(), accesses,
                  calls)
        invariant old(CacheSafe()) ==> CacheSafe()
        invariant forall a :: a in active ==> a.0 in ActiveIds(contexts)
      {
        ghost var turn, more, mid, so := Now(), accesses, calls, clean;
        LoopNext(config, env, events, active, now, was, linked, first, i, rs, done, clean, turn, more, mid);
        var outcome, fine, stop;
        outcome, fine, stop := ProcessOne(events[i], active, now);
        clean := clean && fine;
        if stop {
          LoopStops(config, env, events, active, now, was, linked, first, i, rs, done, so, turn, more, mid,
                    StorageFailed, fine, Now(), accesses, calls);
          return Err(StorageFailed), clean;
        }
        if outcome.Panicked? {
          LoopStops(config, env, events, active, now, was, linked, first, i, rs, done, so, turn, more, mid,
                    TaskPanicked, fine, Now(), accesses, calls);
          return Err(TaskPanicked), clean;
        }
        LoopGoesOn(config, env, events, active, now, was, linked, first, i, rs, done, so, turn, more, mid,
                   outcome, fine, Now(), accesses, calls);
        rs := rs + [outcome];
        match outcome {
          case Assigned(id, _, _) => done := done + [Assignment(events[i], id)];
          case Failed =>  // logged; the next event is tried
        }
      }
      r := Ok(done);
      LoopEnds(config, env, events, active, now, was, linked, first, rs, done, clean, Now(), accesses, calls);
    }

    /**
     One turn of the batch loop: assign, then point the log row at the context.
     Only a failure of that last write stops the batch.
     */
    method ProcessOne(e: Id, active: seq<(Id, Context)>, now: int) returns (r: Outcome, clean: bool, stop: bool)
      requires Ledger(Tables()) && e in log && log[e].workContext.None?
      requires forall a :: a in active ==> a.0 in ActiveIds(contexts)
      modifies `contexts, `log, `resources, `edges, `accesses, `issued, `owed, `centroids, `calls
      ensures old(calls) <= calls && (clean <==> SmoothSince(old(calls)) && EventEmbeds(config, env, old(log[e])))
      ensures SmoothSince(old(calls)) ==> Accounted(old(Tables()), old(accesses), Tables(), accesses)
      ensures Turn(old(Tables()), Tables(), e, r) && (clean ==> !r.Failed?)
      ensures old(CacheSafe()) ==> CacheSafe()
      ensures forall a :: a in active ==> a.0 in ActiveIds(contexts)
      ensures r.Panicked? ==> config.assignmentThreshold <= 0.0
      ensures stop ==> r.Failed? && old(calls) < calls && env.fails(calls - 1)
      ensures r.Failed? ==> log == old(log)
      ensures !r.Panicked? ==> TurnRuns(config, env, e, active, now, old(Now()), old(calls), r, Now(), calls)
      ensures r.Panicked? && SmoothSince(old(calls)) ==> Takes(config, env, e, active, now, old(Now()), r, Now())
      ensures stop ==> RowWriteFails(config, env, e, active, now, old(Now()), old(calls), Now(), calls)
    {
      hide Ledger, KeyUnique, Grown, Turn, Assigning, Processing, Smooth, SameOwed, Owed, ActiveIds, EventEmbeds,
           Assigns;
      ghost var start, first, was := Tables(), calls, Now();
      stop := false;
      r, clean := AssignEvent(log[e], active, now);
      ghost var mid, taken := Now(), r;
      SmoothStep(env.fails, first, calls);
      StaysActive(start, Tables(), active);
      if r.Assigned? {
        var ok := PointRow(start, e, r);
        if !ok { r, clean, stop := Failed, false, true; }
      } else {
        TurnBreaksOff(start, Tables(), e, r);
        EqualOwed(start, Tables());
      }
      if SmoothSince(first) { TurnTakes(config, env, e, active, now, was, mid, r, Now()); }
    }

    /** The log row of an assigned event is pointed at its context. */
    method PointRow(ghost start: Db, e: Id, r: Outcome) returns (ok: bool)
      requires r.Assigned? && Ledger(start) && Assigning(start, Tables()) && owed == Owe(start, r.id)
      requires r.id in ActiveIds(contexts) && e in start.log && start.log[e].workContext.None?
      modifies `log, `owed, `calls
      ensures calls == old(calls) + 1 && (ok <==> !env.fails(old(calls)))
      ensures Tables() == if ok then Apply(old(Tables()), Stmt.SetWorkContext(e, r.id)) else old(Tables())
      ensures Turn(start, Tables(), e, if ok then r else Failed)
      ensures ok ==> SameOwed(start, Tables())
    {
      hide Ledger, Assigning, Turn, SameOwed, Owed, ActiveIds;
      ghost var counted := Tables();
      ok := SetWorkContext(e, r.id);
      if ok { TurnCompletes(start, counted, e, r); } else { TurnBreaksOff(start, counted, e, Failed); }
    }

    // ---- The merge pass ----

    /** What the gate reads, with a failed resource query read as no resources. */
    method ReadGateView(active: seq<(Id, Context)>) returns (v: GateView, clean: bool)
      requires forall i, j :: 0 <= i < j < |active| ==> active[i].0 != active[j].0
      modifies `calls
      ensures calls == old(calls) + |active| && (clean <==> SmoothSince(old(calls)))
      ensures v.centroids == centroids && v.mergeThreshold == config.mergeThreshold
      ensures v.overlapMin == config.mergeResourceOverlapMin && v.sqrt == env.sqrt
      ensures forall k :: 0 <= k < |active| ==>
                ResourcesOf(v, active[k].0) == if env.fails(old(calls) + k) then {} else Items(resources, active[k].0)
    {
      clean := true;
      var byContext: map<Id, set<Id>> := map[];
      for i := 0 to |active|
        invariant calls == old(calls) + i && (clean <==> SmoothSince(old(calls)))
        invariant forall k :: 0 <= k < i ==>
                    active[k].0 in byContext
                    && byContext[active[k].0] == if env.fails(old(calls) + k) then {} else Items(resources, active[k].0)
      {
        var ok, members := ListResourceIds(active[i].0);
        clean := clean && ok;
        byContext := byContext[active[i].0 := members];
      }
      v := GateView(centroids, byContext, config.mergeThreshold, config.mergeResourceOverlapMin, env.sqrt);
    }

    /** Phase 2: each candidate in turn, unless one of its sides is already gone. */
    method ExecuteMerges(candidates: seq<Pair>) returns (merged: seq<Pair>, allOk: bool, ghost commits: seq<bool>)
      requires Ledger(Tables())
      requires forall n :: 0 <= n < |candidates| ==> candidates[n].keep != candidates[n].remove
      modifies `resources, `actions, `contexts, `merges, `centroids, `calls
      ensures old(calls) <= calls && (allOk <==> SmoothSince(old(calls)))
      ensures (merged, calls) == Ran(candidates, env.fails, old(calls))
      ensures |commits| == |candidates| && merged == Replay(candidates, commits)
      ensures MergedTables(old(Tables()), Tables(), merged)
      ensures centroids == old(centroids) - Removed(merged)
      ensures allOk <==> AllCommitted(commits)
    {
      hide MergedTables, Ledger, Smooth, Replayed, AllCommitted, Ran;
      RanNothing(candidates, env.fails, calls);
      ghost var start, first := Tables(), calls;
      merged, commits, allOk := [], [], true;
      var alreadyRemoved: set<Id> := {};
      NothingMerged(start);
      NothingReplayed(candidates);
      SmoothStep(env.fails, first, first);
      for i := 0 to |candidates|
        invariant |commits| == i && first <= calls && (allOk <==> SmoothSince(first))
        invariant (merged, calls) == Ran(candidates[..i], env.fails, first)
        invariant Replayed(candidates, i, commits, merged)
        invariant MergedTables(start, Tables(), merged)
        invariant Dropped(old(centroids), centroids, alreadyRemoved, merged)
        invariant allOk <==> AllCommitted(commits)
      {
        var p := candidates[i];
        if p.keep in alreadyRemoved || p.remove in alreadyRemoved {
          RanOneMore(candidates, env.fails, first, i);
          ReplayOneMore(candidates, i, commits, merged, true);
          OneMoreCommitted(commits, true);
          commits := commits + [true];
          continue;
        }
        ghost var cached := centroids;
        SmoothStep(env.fails, first, calls);
        RanOneMore(candidates, env.fails, first, i);
        var ok := MergeAndForget(start, merged, p);
        ReplayOneMore(candidates, i, commits, merged, ok);
        OneMoreCommitted(commits, ok);
        commits := commits + [ok];
        if !ok {
          allOk := false;
          continue;
        }
        DroppedOneMore(old(centroids), cached, alreadyRemoved, merged, p);
        alreadyRemoved := alreadyRemoved + {p.remove};
        merged := merged + [p];
      }
      AllReplayed(candidates, commits, merged);
      assert candidates[..|candidates|] == candidates;
    }

    /** The merge of one candidate, and its centroid dropped from the cache. */
    method MergeAndForget(ghost start: Db, ghost merged: seq<Pair>, p: Pair) returns (ok: bool)
      requires MergedTables(start, Tables(), merged) && p.keep != p.remove
      modifies `resources, `actions, `contexts, `merges, `centroids, `calls
      ensures calls == old(calls) + 1 && (ok <==> !env.fails(old(calls)))
      ensures MergedTables(start, Tables(), if ok then merged + [p] else merged)
      ensures centroids == if ok then old(centroids) - {p.remove} else old(centroids)
    {
      assert KeyUnique(resources) && KeyUnique(actions);
      hide MergedTables, KeyUnique, Ledger;
      ghost var before := Tables();
      ok := Merge(p.keep, p.remove);
      if ok {
        MergeOneMore(start, before, merged, p);
        centroids := centroids - {p.remove};
      }
    }

    /** The reads of a pass, before its first merge. */
    method PrepareMerge() returns (ok: bool, clean: bool, v: GateView, s: seq<Snap>)
      modifies `centroids, `calls
      ensures old(calls) < calls && (ok <==> !env.fails(old(calls)))
      ensures clean <==> SmoothSince(old(calls)) && AllCached(old(centroids), contexts, env)
      ensures ok ==> Snapshot(contexts, s)
      ensures ok ==> GateReads(v, s, config, env, old(centroids), contexts, resources, old(calls) + 1)
      ensures !ok ==> s == [] && centroids == old(centroids)
      ensures calls == old(calls) + 1 + |s|
      ensures v.centroids == centroids
    {
      hide Bootstrapped, AllCached, IsListing, Snapshot;
      var active, read;
      ok, clean, active, s := TakeSnapshot();
      v, read := ReadGateView(active);
      clean := clean && read;
      if ok { ViewIsRead(v, active, s, env, resources, old(calls) + 1); }
    }

    /** The listing of a pass, with the missing centroids embedded. */
    method TakeSnapshot() returns (ok: bool, clean: bool, active: seq<(Id, Context)>, s: seq<Snap>)
      modifies `centroids, `calls
      ensures calls == old(calls) + 1 && (ok <==> !env.fails(old(calls)))
      ensures clean <==> ok && AllCached(old(centroids), contexts, env)
      ensures ok ==> Bootstrapped(old(centroids), centroids, contexts, env) && Snapshot(contexts, s)
      ensures !ok ==> active == [] && s == [] && centroids == old(centroids)
      ensures |s| == |active| && forall k :: 0 <= k < |s| ==> s[k].id == active[k].0
      ensures forall i, j :: 0 <= i < j < |active| ==> active[i].0 != active[j].0
    {
      hide Bootstrapped, AllCached, IsListing, Snapshot;
      clean, s := false, [];
      ok, active := ListActive();
      if ok {
        clean := EnsureCentroids(active);
        s := seq(|active|, i requires 0 <= i < |active| =>
            Snap(active[i].0, active[i].1.title, active[i].1.eventCount));
        ListingIsSnapshot(contexts, active, s);
        ListingMeaning(contexts, active);
      }
    }

    /**
     One pass over a fresh snapshot: the gate sees the engine's thresholds, its
     centroids with the missing ones embedded, and the resources as each read
     returned them. It is clean exactly when no call failed and every active
     context has a centroid or embeds.
     */
    method CheckMergeCandidates()
      returns (r: Result<seq<Pair>, LoopError>, clean: bool, ghost v: GateView, ghost snaps: seq<Snap>,
          ghost commits: seq<bool>)
      requires Ledger(Tables())
      modifies `resources, `actions, `contexts, `merges, `centroids, `calls
      ensures old(calls) < calls && (r.Ok? <==> !env.fails(old(calls)))
      ensures clean <==> SmoothSince(old(calls)) && AllCached(old(centroids), old(contexts), env)
      ensures r.Ok? ==> Snapshot(old(contexts), snaps)
      ensures r.Ok? ==> GateReads(v, snaps, config, env, old(centroids), old(contexts), old(resources), old(calls) + 1)
      ensures r.Ok? ==> |commits| == |Candidates(v, snaps)| && r.value == Replay(Candidates(v, snaps), commits)
      ensures r.Ok? ==> (r.value, calls) == Ran(Candidates(v, snaps), env.fails, old(calls) + 1 + |snaps|)
      ensures r.Ok? ==> MergedTables(old(Tables()), Tables(), r.value)
      ensures r.Ok? ==> centroids == v.centroids - Removed(r.value)
      ensures r.Err? ==> Tables() == old(Tables()) && centroids == old(centroids)
      ensures MergeRun(config, env, old(Now()), old(calls), Now(), calls)
      ensures clean ==> AllCommitted(commits)
      ensures old(CacheSafe()) ==> CacheSafe()
      ensures clean ==> UniqueActiveTitles(contexts)
    {
      hide Ledger, Snapshot, Bootstrapped, AllCached, MergedTables, UniqueActiveTitles, Smooth, AllCommitted, Ran,
           MergeRun;
      ghost var first, start := calls, Now();
      var ok, view, s, allOk, merged;
      ok, clean, view, s := PrepareMerge();
      ghost var mid := calls;
      SmoothStep(env.fails, first, first);
      SmoothJoin(env.fails, first, first + 1, mid);
      v, snaps, commits := view, s, [];
      if !ok {
        PassFails(config, env, start, first, Now(), calls);
        return Err(StorageFailed), false, v, snaps, commits;
      }
      SnapshotMeaning(old(contexts), old(centroids), v.centroids, env, s);
      var candidates := CollectCandidates(view, s);
      CandidatesAreProper(view, s);
      merged, allOk, commits := ExecuteMerges(candidates);
      SmoothJoin(env.fails, first, mid, calls);
      clean := clean && allOk;
      if clean { TitlesUniqueAfterPass(old(contexts), view, s, commits); }
      MergesAreRemovals(old(Tables()), Tables(), merged);
      PassEnds(config, env, start, first, view, s, merged, Now(), calls);
      r := Ok(merged);
    }

    // ---- The tick loop ----

    method PruneArchivedCentroids() returns (ok: bool)
      modifies `centroids, `calls
      ensures calls == old(calls) + 1 && (ok <==> !env.fails(old(calls)))
      ensures ok ==> CacheSafe()
      ensures ok ==> centroids == map c | c in old(centroids) && c in ActiveIds(contexts) :: old(centroids)[c]
      ensures !ok ==> centroids == old(centroids)
    {
      var active;
      ok, active := ListActive();
      if ok {
        var ids := set a | a in active :: a.0;
        assert ids == ActiveIds(contexts) by {
          forall c | c in ActiveIds(contexts) ensures c in ids {
            var k :| 0 <= k < |active| && active[k].0 == c;
            assert active[k] in active;
          }
        }
        centroids := map c | c in centroids && c in ids :: centroids[c];
      }
    }

    /** Archive what is dormant; when anything was, drop its centroids. */
    method ArchivalTick(cutoff: int) returns (pruned: bool)
      requires Ledger(Tables())
      modifies `contexts, `centroids, `calls
      ensures old(calls) < calls && (SmoothSince(old(calls)) ==> pruned)
      ensures Ledger(Tables()) && owed == old(owed) && log == old(log)
      ensures contexts == if env.fails(old(calls)) then old(contexts)
                else Apply(old(Tables()), Stmt.ArchiveDormant(cutoff)).contexts
      ensures old(CacheSafe()) && pruned ==> CacheSafe()
      ensures Ticked(config, env, Archival(cutoff), old(Now()), old(calls), Now(), calls)
    {
      hide Ledger, ActiveIds;
      ghost var before := Tables();
      var ok, affected := ArchiveDormant(cutoff);
      LedgerStep(before, Stmt.ArchiveDormant(cutoff));
      pruned := true;
      if affected > 0 {
        pruned := PruneArchivedCentroids();
      }
    }

    /** A batch, then a merge pass. A panic in the batch ends the loop. */
    method InferenceTick(since: int, now: int) returns (alive: bool, clean: bool)
      requires Ledger(Tables())
      modifies this
      ensures old(calls) <= calls && (clean ==> SmoothSince(old(calls)))
      ensures SmoothSince(old(calls)) && EmbedderUp(env) ==> clean
      ensures config.assignmentThreshold > 0.0 ==> alive
      ensures Ledger(Tables())
      ensures old(CacheSafe()) ==> CacheSafe()
      ensures old(merges) <= merges
      ensures SmoothSince(old(calls)) ==> SameOwed(old(Tables()), Tables())
      ensures SmoothSince(old(calls)) && merges == old(merges) ==> Grown(old(Links()), old(accesses), Links(), accesses)
      ensures SmoothSince(old(calls)) && merges == old(merges) && old(Meshed(Links())) ==> Meshed(Links())
      ensures alive && clean ==> UniqueActiveTitles(contexts)
      ensures alive ==> Ticked(config, env, Inference(since, now), old(Now()), old(calls), Now(), calls)
    {
      hide Ledger, SameOwed, Grown, Smooth, Meshed, UniqueActiveTitles, RecentRun, MergeRun, Ticked, Lists,
           AssignsWhatEmbeds,
           OthersKept, Embeddable, AllStoredIn, AssignedNow, EventsOf, Unassigned, OldestFirst, GateReads, Snapshot;
      ghost var start, was, first, view := Tables(), accesses, calls, Now();
      var batch, fine;
      ghost var listed;
      batch, clean, listed := ProcessRecentEvents(since, now);
      ghost var mid := calls;
      if SmoothSince(first) { AccountedMesh(start, was, Tables(), accesses); }
      if batch == Err(TaskPanicked) { return false, clean; }
      ghost var between := Now();
      ghost var v, snaps, commits;
      ghost var before := Tables();
      var merged;
      merged, fine, v, snaps, commits := CheckMergeCandidates();
      if merged.Ok? { NoMergeNoChange(before, Tables(), merged.value); }
      SmoothJoin(env.fails, first, mid, calls);
      EqualOwed(before, Tables());
      SameOwedTrans(start, before, Tables());
      BatchThenPass(config, env, since, now, view, first, listed, batch, between, mid, Now(), calls);
      alive, clean := true, clean && fine;
    }

    /** At startup: contexts of the general type are put to the vote of their latest events. */
    method ReclassifyGeneral() returns (clean: bool)
      requires Ledger(Tables())
      modifies `contexts, `calls
      ensures old(calls) < calls && (clean <==> SmoothSince(old(calls)))
      ensures Ledger(Tables()) && owed == old(owed) && log == old(log)
      ensures RetypedSome(env.typing, log, old(contexts), contexts)
      ensures clean ==> RetypedAll(env.typing, log, old(contexts), contexts)
    {
      hide Ledger, Smooth, Retyping, Reclassified, RetypedSome, RetypedAll;
      ghost var first, start := calls, contexts;
      SmoothStep(env.fails, first, first);
      var active;
      clean, active := ListActive();
      RetypingStarts(env.typing, log, start, active);
      if !clean { return; }
      for i := 0 to |active|
        invariant first < calls && clean && SmoothSince(first)
        invariant Ledger(Tables()) && owed == old(owed) && log == old(log)
        invariant Retyping(env.typing, log, start, contexts, active, i)
        invariant RetypedSome(env.typing, log, start, contexts)
      {
        ghost var mid, before := calls, contexts;
        RetypingNext(env.typing, log, start, before, active, i);
        clean := ReclassifyOne(active[i].0, active[i].1);
        SmoothJoin(env.fails, first, mid, calls);
        RetypedOne(env.typing, log, start, before, contexts, active, i);
        if !clean { return; }
      }
      RetypingDone(env.typing, log, start, contexts, active);
    }

    /** One context: its latest events vote, and its row is written back with the winning type. */
    method ReclassifyOne(id: Id, ctx: Context) returns (ok: bool)
      requires Ledger(Tables()) && id in contexts && contexts[id] == ctx && ctx.status == Active
      modifies `contexts, `calls
      ensures old(calls) <= calls && (ok <==> SmoothSince(old(calls)))
      ensures Ledger(Tables())
      ensures id in contexts && contexts == old(contexts)[id := contexts[id]]
      ensures contexts == old(contexts) || Reclassified(env.typing, log, id, ctx, contexts[id])
      ensures ok ==> Reclassified(env.typing, log, id, ctx, contexts[id])
    {
      hide Ledger, Reclassified, Asked, Wins, Smooth;
      ok := true;
      SmoothStep(env.fails, calls, calls);
      SmoothStep(env.fails, calls, calls + 1);
      NoVote(env.typing, log, id, ctx);
      if ctx.decor.contextType != GENERAL { return; }
      var events;
      ok, events := LatestEvents(id);
      if !ok || events == [] { return; }
      AskedAreStored(log, id, events);
      var best := Vote(env.typing, log, events);
      VoteMeaning(env.typing, log, id, events, ctx, best);
      if best != GENERAL {
        var updated := WithType(env.typing, ctx, best);
        LedgerStep(Tables(), Stmt.WriteContext(id, updated));
        ok := WriteContext(id, updated);
      }
    }

    /** query_by_context. */
    method LatestEvents(id: Id) returns (ok: bool, events: seq<Id>)
      modifies `calls
      ensures calls == old(calls) + 1 && (ok <==> !env.fails(old(calls)))
      ensures if ok then Asked(log, id, events) else events == []
    {
      events := [];
      ok := Call();
      if ok { events := OrderedList(RowsAssigned(log, id), LatestFirst(log), VOTERS); }
    }

    /** Rows arrive and expire between ticks, outside the loop. */
    method OtherTasks(t: Tick)
      requires Ledger(Tables()) && (t.Ingested? || t.Retention?)
      modifies `log, `owed
      ensures Ledger(Tables())
      ensures t.Ingested? ==> owed == old(owed)
      ensures Ticked(config, env, t, old(Now()), old(calls), Now(), calls)
    {
      ghost var before := Tables();
      match t {
        case Ingested(event, row) =>
          if event !in log && row.workContext.None? {
            LedgerStep(before, AddEvent(event, row));
            log := log[event := row];
          }
        case Retention(cutoff) =>
          LedgerStep(before, DeleteOlderThan(cutoff));
          owed := Apply(before, DeleteOlderThan(cutoff)).owed;
          log := map e | e in log && log[e].timestamp >= cutoff :: log[e];
      }
    }

    /**
     The loop over any schedule. The ledger holds throughout. When no storage call
     fails, whatever fails to embed, every count is exact as long as no row
     expires, and without merges the links and edges are exactly those that the
     accesses made lead to, so contexts stay cliques. With the embedder up too the
     run is clean and the cache is safe; with a positive threshold it never dies.
     `trace` and `marks` are the states between the ticks and the call numbers
     there: each tick is the run of its kind, the first after the startup vote.
     */
    method RunLoop(schedule: seq<Tick>)
      returns (alive: bool, clean: bool, pruned: bool, ghost trace: seq<View>, ghost marks: seq<nat>)
      requires Ledger(Tables())
      modifies this
      ensures Ledger(Tables())
      ensures SmoothSince(old(calls)) && EmbedderUp(env) ==> clean && pruned
      ensures config.assignmentThreshold > 0.0 ==> alive
      ensures old(CacheSafe()) && pruned ==> CacheSafe()
      ensures (clean || SmoothSince(old(calls))) && Settled(old(Tables())) && NoExpiry(schedule) ==>
                CountsAgree(Tables())
      ensures (clean || SmoothSince(old(calls))) && merges == old(merges) ==>
                Grown(old(Links()), old(accesses), Links(), accesses)
      ensures (clean || SmoothSince(old(calls))) && merges == old(merges) && old(Meshed(Links())) ==> Meshed(Links())
      ensures alive ==> LoopRuns(config, env, schedule, trace, marks) && trace[|schedule|] == Now()
      ensures alive ==> old(calls) < marks[0] && marks[|schedule|] == calls
      ensures alive ==> VotedStart(env, old(Now()), old(calls), trace[0], marks[0])
    {
      NotGrown(Links(), accesses);
      hide Ledger, Smooth, Meshed, Grown, SameOwed, Settled, CountsAgree, Redecorated, Ticked, TracedTo, VotedStart,
           LoopRuns, RetypedAll;
      ghost var start, first, was, view := Tables(), calls, accesses, Now();
      alive, pruned := true, true;
      clean := ReclassifyGeneral();
      EqualOwed(start, Tables());
      trace, marks := [Now()], [calls];
      VoteStarts(env, view, first, Now(), calls);
      TraceStarts(config, env, schedule, Now(), calls);
      for i := 0 to |schedule|
        invariant Ledger(Tables())
        invariant old(calls) <= calls && (SmoothSince(old(calls)) && EmbedderUp(env) ==> clean && pruned)
        invariant alive
        invariant old(CacheSafe()) && pruned ==> CacheSafe()
        invariant (clean || SmoothSince(first)) && NoExpiry(schedule) ==> SameOwed(start, Tables())
        invariant start.merges <= merges
        invariant (clean || SmoothSince(first)) && merges == start.merges ==>
                    Grown(Graph(start.edges, start.resources), was, Links(), accesses)
        invariant TracedTo(config, env, schedule, i, trace, marks, Now(), calls)
        invariant |trace| == |marks| == i + 1 && first < marks[0] && VotedStart(env, view, first, trace[0], marks[0])
      {
        ghost var turn := Now();
        ghost var before, mid, linked := Tables(), calls, accesses;
        var fine, dropped;
        alive, fine, dropped := RunTick(schedule[i]);
        SmoothJoin(env.fails, first, mid, calls);
        SameOwedTrans(start, before, Tables());
        LinksGrow(start, was, before, linked, Tables(), accesses);
        clean, pruned := clean && fine, pruned && dropped;
        if !alive { break; }
        TraceGoesOn(config, env, schedule, i, trace, marks, turn, mid, Now(), calls);
        trace, marks := trace + [Now()], marks + [calls];
      }
      if alive { TraceEnds(config, env, schedule, trace, marks, Now(), calls); }
      SettledStays(start, Tables());
      GrownMeshed(start, was, Tables(), accesses);
    }

    /** What the select loop does for one tick, or what other tasks do in between. */
    method RunTick(t: Tick) returns (alive: bool, clean: bool, pruned: bool)
      requires Ledger(Tables())
      modifies this
      ensures old(calls) <= calls && (SmoothSince(old(calls)) && EmbedderUp(env) ==> clean && pruned)
      ensures config.assignmentThreshold > 0.0 ==> alive
      ensures Ledger(Tables())
      ensures old(CacheSafe()) && pruned ==> CacheSafe()
      ensures (clean || SmoothSince(old(calls))) && !t.Retention? ==> SameOwed(old(Tables()), Tables())
      ensures old(merges) <= merges
      ensures (clean || SmoothSince(old(calls))) && merges == old(merges) ==>
                Grown(old(Links()), old(accesses), Links(), accesses)
      ensures alive ==> Ticked(config, env, t, old(Now()), old(calls), Now(), calls)
      ensures alive && t.Inference? && SmoothSince(old(calls)) && EmbedderUp(env) ==> UniqueActiveTitles(contexts)
      ensures alive && t.Inference? && SmoothSince(old(calls)) && |Unassigned(old(log), t.since)| < QUERY_LIMIT ==>
                ServedAll(config, env, old(log), log, t.since)
      ensures t.Archival? && !env.fails(old(calls)) ==> NoneOlder(contexts, t.cutoff)
    {
      NotGrown(Links(), accesses);
      hide Ledger, Smooth, Grown, Meshed, Ticked, UniqueActiveTitles, ServedAll, NoneOlder, Unassigned, SameOwed;
      ghost var start, first := Now(), calls;
      alive, clean, pruned := true, true, true;
      match t {
        case Inference(since, now) => alive, clean := InferenceTick(since, now);
        case Archival(cutoff) => pruned := ArchivalTick(cutoff);
        case other => OtherTasks(other);
      }
      if alive { TickMeaning(config, env, t, start, first, Now(), calls); }
    }
  }
}
