/**
 The database behind the inference loop, one field per table, and the statements
 that the loop and the retention job run on it.

 `owed` is bookkeeping of the model: how many times a context's event_count was
 raised without a log row (any longer) pointing at the context.
 */
module Tables {
  import opened Basics
  import opened LinkRows
  import opened CoAccess
  import opened MergePass

  datatype Status = Active | Paused | Completed | Archived

  /** The columns of work_contexts that the engine computes with, and the ones it only decorates. */
  datatype Context = Context(
    title: string,
    status: Status,
    eventCount: int,
    durationSecs: int,
    lastActiveAt: int,
    confidence: real,
    decor: Decor)

  datatype Decor = Decor(contextType: string, color: Option<string>, tags: seq<string>, description: Option<string>)

  datatype LogRow = LogRow(
    timestamp: int,
    action: string,
    resourceId: Option<Id>,
    resourceName: Option<string>,
    durationSecs: Option<int>,
    workContext: Option<Id>)

  datatype Db = Db(
    contexts: map<Id, Context>,
    log: map<Id, LogRow>,
    resources: set<Row<Relevance>>,
    actions: set<Row<int>>,
    edges: Edges,
    merges: seq<Pair>,
    issued: set<Id>,
    owed: map<Id, nat>)

  datatype Stmt =
    | AddEvent(event: Id, row: LogRow)
    | InsertContext(id: Id, ctx: Context)
    | UpdateStats(id: Id, now: int, duration: int)
    | WriteContext(id: Id, ctx: Context)
    | UpdateConfidence(id: Id, confidence: real)
    | SetWorkContext(event: Id, id: Id)
    | LinkResource(id: Id, resource: Id, now: int)
    | WriteEdges(edges: Edges)
    | MergeContexts(keep: Id, remove: Id)
    | ArchiveDormant(cutoff: int)
    | DeleteOlderThan(cutoff: int)

  function Owed(db: Db, c: Id): nat { if c in db.owed then db.owed[c] else 0 }

  function RowsAssigned(log: map<Id, LogRow>, c: Id): set<Id> {
    set e | e in log && log[e].workContext == Some(c)
  }

  function Owe(db: Db, c: Id): map<Id, nat> { db.owed[c := Owed(db, c) + 1] }

  function Expired(log: map<Id, LogRow>, cutoff: int, c: Id): set<Id> {
    set e | e in log && log[e].timestamp < cutoff && log[e].workContext == Some(c)
  }

  function Apply(db: Db, s: Stmt): Db
    requires s.LinkResource? ==> KeyUnique(db.resources)
  {
    match s
    case AddEvent(event, row) =>
      db.(log := db.log[event := row])
    case InsertContext(id, ctx) =>
      db.(contexts := db.contexts[id := ctx], issued := db.issued + {id}, owed := Owe(db, id))
    case UpdateStats(id, now, duration) =>
      if id !in db.contexts then db
      else db.(contexts := db.contexts[id := Counted(db.contexts[id], now, duration)], owed := Owe(db, id))
    case WriteContext(id, ctx) =>
      if id !in db.contexts then db else db.(contexts := db.contexts[id := ctx])
    case UpdateConfidence(id, confidence) =>
      if id !in db.contexts then db else db.(contexts := db.contexts[id := db.contexts[id].(confidence := confidence)])
    case SetWorkContext(event, id) =>
      if event !in db.log then db
      else db.(log := db.log[event := db.log[event].(workContext := Some(id))],
               owed := db.owed[id := if Owed(db, id) > 0 then Owed(db, id) - 1 else 0])
    case LinkResource(id, resource, now) =>
      db.(resources := Link(db.resources, id, resource, 0.5, now))
    case WriteEdges(edges) =>
      db.(edges := edges)
    case MergeContexts(keep, remove) =>
      db.(resources := Merged(db.resources, keep, remove),
          actions := Merged(db.actions, keep, remove),
          contexts := db.contexts - {remove},
          merges := db.merges + [Pair(keep, remove)])
    case ArchiveDormant(cutoff) =>
      db.(contexts := map c | c in db.contexts :: Dormant(db.contexts[c], cutoff))
    case DeleteOlderThan(cutoff) =>
      db.(log := map e | e in db.log && db.log[e].timestamp >= cutoff :: db.log[e],
          owed := map c | c in db.issued + db.owed.Keys :: Owed(db, c) + |Expired(db.log, cutoff, c)|)
  }

  /** One more event: its time, its duration, and the count. */
  function Counted(c: Context, now: int, duration: int): Context {
    c.(lastActiveAt := now, durationSecs := c.durationSecs + duration, eventCount := c.eventCount + 1)
  }

  /** Only active contexts older than the cutoff are archived. */
  function Dormant(c: Context, cutoff: int): Context {
    if c.status == Active && c.lastActiveAt < cutoff then c.(status := Archived) else c
  }

  /** What the code guarantees when it issues a statement. */
  ghost predicate Enabled(db: Db, s: Stmt) {
    match s
    case AddEvent(event, row) => event !in db.log && row.workContext.None?
    case InsertContext(id, ctx) => id !in db.issued && ctx.eventCount == 1 && ctx.status == Active
    case WriteContext(id, ctx) => id in db.contexts ==> ctx.eventCount == db.contexts[id].eventCount
    case SetWorkContext(event, id) => Owed(db, id) > 0 && (event in db.log ==> db.log[event].workContext.None?)
    case MergeContexts(keep, remove) => keep != remove
    case _ => true
  }

  /** Keys are unique, ids in use were issued, and every count is explained. */
  ghost predicate Ledger(db: Db) {
    && KeyUnique(db.resources) && KeyUnique(db.actions)
    && db.contexts.Keys <= db.issued && db.owed.Keys <= db.issued
    && (forall e :: e in db.log && db.log[e].workContext.Some? ==> db.log[e].workContext.value in db.issued)
    && (forall c :: c in db.contexts ==> db.contexts[c].eventCount == |RowsAssigned(db.log, c)| + Owed(db, c))
  }

  /** Every context counts exactly the log rows that point at it. */
  ghost predicate CountsAgree(db: Db) {
    forall c :: c in db.contexts ==> db.contexts[c].eventCount == |RowsAssigned(db.log, c)|
  }

  /** Every statement keeps the ledger, whatever fails before or after it. */
  lemma LedgerStep(db: Db, s: Stmt)
    requires Ledger(db) && Enabled(db, s)
    ensures Ledger(Apply(db, s))
  {
    match s {
      case AddEvent(event, row) => LedgerLog(db, s);
      case SetWorkContext(event, id) => LedgerLog(db, s);
      case DeleteOlderThan(cutoff) => LedgerDelete(db, cutoff);
      case LinkResource(id, resource, now) => LinkMeaning(db.resources, id, resource, 0.5, now);
      case MergeContexts(keep, remove) =>
        MergedMeaning(db.resources, keep, remove);
        MergedMeaning(db.actions, keep, remove);
      case _ => LedgerContexts(db, s);
    }
  }

  lemma LedgerLog(db: Db, s: Stmt)
    requires Ledger(db) && Enabled(db, s) && (s.AddEvent? || s.SetWorkContext?)
    ensures Ledger(Apply(db, s))
  {
    var after := Apply(db, s);
    if s.AddEvent? {
      forall c ensures RowsAssigned(after.log, c) == RowsAssigned(db.log, c) {}
    } else if s.event in db.log {
      AssignedOneMore(db.log, s.event, s.id);
    }
  }

  /** The rows of a context are the kept and the expired ones. */
  lemma SplitByAge(log: map<Id, LogRow>, kept: map<Id, LogRow>, cutoff: int, c: Id)
    requires kept == map e | e in log && log[e].timestamp >= cutoff :: log[e]
    ensures |RowsAssigned(log, c)| == |RowsAssigned(kept, c)| + |Expired(log, cutoff, c)|
  {
    assert RowsAssigned(log, c) == RowsAssigned(kept, c) + Expired(log, cutoff, c);
    assert RowsAssigned(kept, c) !! Expired(log, cutoff, c);
  }

  lemma LedgerDelete(db: Db, cutoff: int)
    requires Ledger(db)
    ensures Ledger(Apply(db, DeleteOlderThan(cutoff)))
  {
    var after := Apply(db, DeleteOlderThan(cutoff));
    forall c ensures |RowsAssigned(db.log, c)| == |RowsAssigned(after.log, c)| + |Expired(db.log, cutoff, c)| {
      SplitByAge(db.log, after.log, cutoff, c);
    }
  }

  lemma LedgerContexts(db: Db, s: Stmt)
    requires Ledger(db) && Enabled(db, s)
    requires s.InsertContext? || s.UpdateStats? || s.WriteContext? || s.UpdateConfidence? || s.WriteEdges?
              || s.ArchiveDormant?
    ensures Ledger(Apply(db, s))
  {
    if s.InsertContext? {
      assert RowsAssigned(db.log, s.id) == {};
    }
  }

  lemma AssignedOneMore(log: map<Id, LogRow>, event: Id, id: Id)
    requires event in log && log[event].workContext.None?
    ensures var after := log[event := log[event].(workContext := Some(id))];
            forall c :: |RowsAssigned(after, c)| == |RowsAssigned(log, c)| + if c == id then 1 else 0
  {
    var after := log[event := log[event].(workContext := Some(id))];
    forall c ensures |RowsAssigned(after, c)| == |RowsAssigned(log, c)| + if c == id then 1 else 0 {
      assert RowsAssigned(after, c) == RowsAssigned(log, c) + if c == id then {event} else {};
    }
  }

  // ---- What counting and expiry do ----

  /** Assignments to one context, one after the other: the time of each and what it adds. */
  function CountedAll(ctx: Context, nows: seq<int>, durations: seq<int>): Context
    requires |nows| == |durations|
  {
    if nows == [] then ctx
    else
      var n := |nows| - 1;
      Counted(CountedAll(ctx, nows[..n], durations[..n]), nows[n], durations[n])
  }

  function Sum(xs: seq<int>): int { if xs == [] then 0 else Sum(xs[..|xs| - 1]) + xs[|xs| - 1] }

  /** Counts and durations add up, the last assignment dates the context, and nothing else changes. */
  lemma {:induction false} StatsAddUp(ctx: Context, nows: seq<int>, durations: seq<int>)
    requires |nows| == |durations|
    ensures var after := CountedAll(ctx, nows, durations);
            && after.eventCount == ctx.eventCount + |nows|
            && after.durationSecs == ctx.durationSecs + Sum(durations)
            && after.lastActiveAt == (if nows == [] then ctx.lastActiveAt else nows[|nows| - 1])
            && after.title == ctx.title && after.status == ctx.status
            && after.confidence == ctx.confidence && after.decor == ctx.decor
  {
    if nows == [] {
    } else {
      StatsAddUp(ctx, nows[..|nows| - 1], durations[..|durations| - 1]);
    }
  }

  /** Expiry removes exactly the rows older than the cutoff and touches no other row and no context. */
  lemma RetentionIff(db: Db, cutoff: int, e: Id)
    ensures var after := Apply(db, DeleteOlderThan(cutoff));
            && (e in after.log <==> e in db.log && db.log[e].timestamp >= cutoff)
            && (e in after.log ==> after.log[e] == db.log[e])
            && after.contexts == db.contexts && after.resources == db.resources && after.edges == db.edges
  {
  }

  // ---- Runs ----

  ghost predicate Legal(db: Db, run: seq<Stmt>)
    requires Ledger(db)
    decreases |run|
  {
    run == [] || (Enabled(db, run[0]) && (LedgerStep(db, run[0]); Legal(Apply(db, run[0]), run[1..])))
  }

  ghost function After(db: Db, run: seq<Stmt>): Db
    requires Ledger(db) && Legal(db, run)
    decreases |run|
  {
    if run == [] then db else LedgerStep(db, run[0]); After(Apply(db, run[0]), run[1..])
  }

  /** In every order of statements, and wherever a run is cut short, no context ever undercounts. */
  lemma {:induction false} LedgerOverRuns(db: Db, run: seq<Stmt>)
    requires Ledger(db) && Legal(db, run)
    ensures Ledger(After(db, run))
    ensures forall c :: c in After(db, run).contexts ==>
              After(db, run).contexts[c].eventCount >= |RowsAssigned(After(db, run).log, c)|
    ensures CountsAgree(After(db, run)) <==> forall c :: c in After(db, run).contexts ==> Owed(After(db, run), c) == 0
    decreases |run|
  {
    if run == [] {
    } else {
      LedgerStep(db, run[0]);
      LedgerOverRuns(Apply(db, run[0]), run[1..]);
    }
  }

  /**
   A whole-row write keeps the ledger exactly when its event_count is current:
   a copy read before an assignment and written after it loses that event.
   */
  lemma WriteKeepsLedgerIffCurrent(db: Db, id: Id, copy: Context)
    requires Ledger(db) && id in db.contexts
    ensures Ledger(Apply(db, WriteContext(id, copy))) <==> copy.eventCount == db.contexts[id].eventCount
  {
    var after := Apply(db, WriteContext(id, copy));
    if copy.eventCount == db.contexts[id].eventCount {
      LedgerStep(db, WriteContext(id, copy));
    } else {
      assert after.contexts[id].eventCount != |RowsAssigned(after.log, id)| + Owed(after, id);
    }
  }

  const EMPTY: Db := Db(map[], map[], {}, {}, map[], [], {}, map[])

  /**
   A copy of a row, read before an assignment and written back in the middle of
   it, loses the event, whatever the tables: one more row points at the context,
   and its count is what it was.
   */
  lemma StaleCopyLosesAnEvent(db: Db, id: Id, event: Id, now: int, duration: int)
    requires Ledger(db) && id in db.contexts && event in db.log && db.log[event].workContext.None?
    ensures var written := Apply(Apply(db, UpdateStats(id, now, duration)), WriteContext(id, db.contexts[id]));
            var done := Apply(written, SetWorkContext(event, id));
            && !Ledger(written)
            && done.contexts == db.contexts
            && |RowsAssigned(done.log, id)| == |RowsAssigned(db.log, id)| + 1
  {
    var counted := Apply(db, UpdateStats(id, now, duration));
    assert id in db.issued;
    LedgerStep(db, UpdateStats(id, now, duration));
    hide Ledger, RowsAssigned, KeyUnique;
    var copied := Apply(counted, WriteContext(id, db.contexts[id]));
    assert copied.contexts == db.contexts && copied.log == db.log;
    WriteKeepsLedgerIffCurrent(counted, id, db.contexts[id]);
    AssignedOneMore(db.log, event, id);
  }

  /** Such tables are reached from empty ones: one event assigned to a context, another waiting. */
  lemma StaleCopyIsReachable(first: LogRow, second: LogRow, ctx: Context)
    requires first.workContext.None? && second.workContext.None? && ctx.eventCount == 1 && ctx.status == Active
    ensures Ledger(EMPTY) && Legal(EMPTY, OneEventAssigned(first, second, ctx))
    ensures var db := After(EMPTY, OneEventAssigned(first, second, ctx));
            && "c" in db.contexts && db.contexts["c"].eventCount == |RowsAssigned(db.log, "c")| == 1
            && "e2" in db.log && db.log["e2"].workContext.None?
  {
    var run := OneEventAssigned(first, second, ctx);
    var d3 := EMPTY.(log := map["e1" := first, "e2" := second], contexts := map["c" := ctx], issued := {"c"},
        owed := map["c" := 1]);
    var d4 := Apply(d3, run[3]);
    assert Ledger(EMPTY);
    assert RowsAssigned(d3.log, "c") == {} && RowsAssigned(d4.log, "c") == {"e1"};
    assert Ledger(d3) && Enabled(d3, run[3]);
    StepFirst(d3, run[3], []);
    StepsToThree(first, second, ctx, d3);
  }

  lemma StepsToThree(first: LogRow, second: LogRow, ctx: Context, d3: Db)
    requires Ledger(EMPTY) && Ledger(d3) && Legal(d3, OneEventAssigned(first, second, ctx)[3..])
    requires first.workContext.None? && second.workContext.None? && ctx.eventCount == 1 && ctx.status == Active
    requires d3 == EMPTY.(log := map["e1" := first, "e2" := second], contexts := map["c" := ctx], issued := {"c"},
              owed := map["c" := 1])
    ensures var run := OneEventAssigned(first, second, ctx);
            Legal(EMPTY, run) && After(EMPTY, run) == After(d3, run[3..])
  {
    var run := OneEventAssigned(first, second, ctx);
    hide Ledger, RowsAssigned, Legal, After;
    var d1 := Apply(EMPTY, run[0]);
    var d2 := Apply(d1, run[1]);
    LedgerStep(EMPTY, run[0]);
    LedgerStep(d1, run[1]);
    assert Apply(d2, run[2]) == d3;
    StepFirst(d2, run[2], run[3..]);
    StepFirst(d1, run[1], run[2..]);
    StepFirst(EMPTY, run[0], run[1..]);
    assert run == [run[0]] + run[1..] && run[1..] == [run[1]] + run[2..] && run[2..] == [run[2]] + run[3..];
  }

  lemma StepFirst(db: Db, s: Stmt, run: seq<Stmt>)
    requires Ledger(db) && Enabled(db, s)
    ensures Ledger(Apply(db, s))
    ensures Legal(Apply(db, s), run) ==> Legal(db, [s] + run) && After(db, [s] + run) == After(Apply(db, s), run)
  {
    LedgerStep(db, s);
    hide Ledger, Enabled;
    assert ([s] + run)[0] == s && ([s] + run)[1..] == run;
  }

  function OneEventAssigned(first: LogRow, second: LogRow, ctx: Context): seq<Stmt> {
    [AddEvent("e1", first), AddEvent("e2", second), InsertContext("c", ctx), SetWorkContext("e1", "c")]
  }

  // ---- Complete operations, when no storage call fails ----

  datatype Op =
    | Ingest(event: Id, row: LogRow)
    | AssignReuse(event: Id, id: Id, now: int, duration: int, resource: Option<Id>, edges: Edges, confidence: real,
        enriched: Context)
    | AssignNew(event: Id, id: Id, ctx: Context, now: int, resource: Option<Id>, edges: Edges)
    | MergePair(keep: Id, remove: Id)
    | Reclassify(id: Id, ctx: Context)
    | Archive(cutoff: int)

  function LinkPart(id: Id, resource: Option<Id>, now: int, edges: Edges): seq<Stmt> {
    match resource
    case None => []
    case Some(r) => [WriteEdges(edges), LinkResource(id, r, now)]
  }

  /** The statements of one operation, in the order the code issues them. */
  function Expand(op: Op): seq<Stmt> {
    match op
    case Ingest(event, row) => [AddEvent(event, row)]
    case AssignReuse(event, id, now, duration, resource, edges, confidence, enriched) =>
      [UpdateStats(id, now, duration)] + LinkPart(id, resource, now, edges)
      + [UpdateConfidence(id, confidence), WriteContext(id, enriched), SetWorkContext(event, id)]
    case AssignNew(event, id, ctx, now, resource, edges) =>
      [InsertContext(id, ctx)] + LinkPart(id, resource, now, edges) + [SetWorkContext(event, id)]
    case MergePair(keep, remove) => [MergeContexts(keep, remove)]
    case Reclassify(id, ctx) => [WriteContext(id, ctx)]
    case Archive(cutoff) => [ArchiveDormant(cutoff)]
  }

  ghost predicate NothingOwed(db: Db) {
    forall c :: c in db.contexts ==> Owed(db, c) == 0
  }

  lemma {:induction false} AfterAppend(db: Db, a: seq<Stmt>, b: seq<Stmt>)
    requires Ledger(db) && Legal(db, a + b)
    ensures Legal(db, a) && Ledger(After(db, a)) && Legal(After(db, a), b)
    ensures After(db, a + b) == After(After(db, a), b)
    decreases |a|
  {
    if a == [] {
      assert a + b == b;
    } else {
      LedgerStep(db, a[0]);
      assert (a + b)[1..] == a[1..] + b;
      AfterAppend(Apply(db, a[0]), a[1..], b);
    }
  }

  ghost predicate OpsLegal(db: Db, ops: seq<Op>)
    requires Ledger(db)
    decreases |ops|
  {
    ops == [] ||
    (Assignable(db, ops[0]) && Legal(db, Expand(ops[0]))
     && (LedgerOverRuns(db, Expand(ops[0])); OpsLegal(After(db, Expand(ops[0])), ops[1..])))
  }

  /** An assigned event is in the log, and a reused context in the table. */
  ghost predicate Assignable(db: Db, op: Op) {
    && ((op.AssignReuse? || op.AssignNew?) ==> op.event in db.log)
    && (op.AssignReuse? ==> op.id in db.contexts)
  }

  ghost function AfterOps(db: Db, ops: seq<Op>): Db
    requires Ledger(db) && OpsLegal(db, ops)
    decreases |ops|
  {
    if ops == [] then db
    else
      LedgerOverRuns(db, Expand(ops[0]));
      AfterOps(After(db, Expand(ops[0])), ops[1..])
  }

  /**
   Without storage failures, through every interleaving of ingestion, batches,
   merges, archivals, reclassification and enrichment: each context's event_count
   is the number of log rows assigned to it.
   */
  lemma {:induction false} CountsAgreeOverOperations(db: Db, ops: seq<Op>)
    requires Ledger(db) && NothingOwed(db) && OpsLegal(db, ops)
    ensures Ledger(AfterOps(db, ops)) && CountsAgree(AfterOps(db, ops))
    decreases |ops|
  {
    if ops == [] {
    } else {
      LedgerOverRuns(db, Expand(ops[0]));
      OperationOwesNothing(db, ops[0]);
      CountsAgreeOverOperations(After(db, Expand(ops[0])), ops[1..]);
    }
  }

  lemma OperationOwesNothing(db: Db, op: Op)
    requires Ledger(db) && NothingOwed(db) && Assignable(db, op) && Legal(db, Expand(op))
    ensures NothingOwed(After(db, Expand(op)))
  {
    var run := Expand(op);
    match op {
      case AssignReuse(event, id, now, duration, resource, edges, confidence, enriched) =>
        var mid := LinkPart(id, resource, now, edges) + [UpdateConfidence(id, confidence), WriteContext(id, enriched)];
        assert run == [UpdateStats(id, now, duration)] + mid + [SetWorkContext(event, id)];
        CountedThenAssigned(db, UpdateStats(id, now, duration), mid, event, id);
      case AssignNew(event, id, ctx, now, resource, edges) =>
        CountedThenAssigned(db, InsertContext(id, ctx), LinkPart(id, resource, now, edges), event, id);
      case _ =>
        LedgerStep(db, run[0]);
        assert run[1..] == [];
        assert After(db, run) == Apply(db, run[0]);
    }
  }

  ghost predicate Neutral(run: seq<Stmt>) {
    forall s :: s in run ==> s.WriteEdges? || s.LinkResource? || s.UpdateConfidence? || s.WriteContext?
  }

  lemma CountedThenAssigned(db: Db, first: Stmt, mid: seq<Stmt>, event: Id, id: Id)
    requires Ledger(db) && NothingOwed(db) && Neutral(mid) && event in db.log
    requires (first.UpdateStats? && first.id == id && id in db.contexts) || (first.InsertContext? && first.id == id)
    requires Legal(db, [first] + mid + [SetWorkContext(event, id)])
    ensures NothingOwed(After(db, [first] + mid + [SetWorkContext(event, id)]))
  {
    var last := SetWorkContext(event, id);
    AfterAppend(db, [first] + mid, [last]);
    AfterAppend(db, [first], mid);
    AfterOne(db, first);
    var one := Apply(db, first);
    CountedOnce(db, first, id);
    NeutralKeepsOwed(one, mid);
    var two := After(one, mid);
    AfterOne(two, last);
    assert two.owed == one.owed && two.contexts.Keys == one.contexts.Keys && event in two.log;
  }

  lemma AfterOne(db: Db, s: Stmt)
    requires Ledger(db) && Legal(db, [s])
    ensures Enabled(db, s) && Ledger(Apply(db, s)) && After(db, [s]) == Apply(db, s)
  {
    LedgerStep(db, s);
    assert [s][1..] == [];
  }

  lemma CountedOnce(db: Db, first: Stmt, id: Id)
    requires Ledger(db) && NothingOwed(db) && Enabled(db, first)
    requires (first.UpdateStats? && first.id == id && id in db.contexts) || (first.InsertContext? && first.id == id)
    ensures var one := Apply(db, first);
            one.log == db.log && forall c :: c in one.contexts ==> Owed(one, c) == if c == id then 1 else 0
  {
  }

  lemma {:induction false} NeutralKeepsOwed(db: Db, run: seq<Stmt>)
    requires Ledger(db) && Legal(db, run) && Neutral(run)
    ensures After(db, run).owed == db.owed && After(db, run).log == db.log
              && After(db, run).contexts.Keys == db.contexts.Keys
    decreases |run|
  {
    if run == [] {
    } else {
      assert run[0] in run;
      LedgerStep(db, run[0]);
      NeutralKeepsOwed(Apply(db, run[0]), run[1..]);
    }
  }
}
