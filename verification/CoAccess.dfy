/**
 The co-access graph: each access of a resource in a context adds one to the
 weight of an edge from that resource to every other resource of the context.
 */
module CoAccess {
  import opened Basics
  import opened LinkRows

  /** PRIMARY KEY (source_id, target_id, edge_type), with edge_type always "co_access". */
  type Edges = map<(Id, Id), nat>

  /** The payload of work_context_resources. */
  datatype Relevance = Relevance(score: real, first: int, last: int)

  datatype Graph = Graph(edges: Edges, rows: set<Row<Relevance>>)

  datatype Access = Access(ctx: Id, resource: Id, at: int)

  function Weight(e: Edges, source: Id, target: Id): nat {
    if (source, target) in e then e[(source, target)] else 0
  }

  /** ResourceEdgeRepo::upsert: insert with weight one, or add one. */
  function UpsertEdge(e: Edges, source: Id, target: Id): Edges {
    e[(source, target) := Weight(e, source, target) + 1]
  }

  /** Every member other than r gains one on its edge from r. */
  function Connected(e: Edges, members: set<Id>, r: Id): Edges {
    map p | p in e.Keys + (set m | m in members && m != r :: (r, m)) ::
      Weight(e, p.0, p.1) + (if p.0 == r && p.1 in members && p.1 != r then 1 else 0)
  }

  /** ContextResourceRepo::link: a new row, or a new score and last date on the row that is there. */
  function Link(rows: set<Row<Relevance>>, ctx: Id, r: Id, score: real, now: int): set<Row<Relevance>>
    requires KeyUnique(rows)
  {
    if r in Items(rows, ctx) then
      var q :| q in rows && q.owner == ctx && q.item == r;
      rows - {q} + {Row(ctx, r, Relevance(score, q.data.first, now))}
    else
      rows + {Row(ctx, r, Relevance(score, now, now))}
  }

  lemma LinkMeaning(rows: set<Row<Relevance>>, ctx: Id, r: Id, score: real, now: int)
    requires KeyUnique(rows)
    ensures KeyUnique(Link(rows, ctx, r, score, now))
    ensures Items(Link(rows, ctx, r, score, now), ctx) == Items(rows, ctx) + {r}
    ensures forall o :: o != ctx ==> RowsOf(Link(rows, ctx, r, score, now), o) == RowsOf(rows, o)
    ensures forall o :: o != ctx ==> Items(Link(rows, ctx, r, score, now), o) == Items(rows, o)
  {
    var after := Link(rows, ctx, r, score, now);
    forall x ensures x in Items(after, ctx) <==> x in Items(rows, ctx) + {r} {
      if x in Items(rows, ctx) && x != r {
        var q :| q in rows && q.owner == ctx && q.item == x;
        assert q in after;
      }
    }
    forall o | o != ctx ensures RowsOf(after, o) == RowsOf(rows, o) && Items(after, o) == Items(rows, o) {
      assert RowsOf(after, o) == RowsOf(rows, o);
      forall x ensures x in Items(after, o) <==> x in Items(rows, o) {
        if q :| q in rows && q.owner == o && q.item == x { assert q in RowsOf(after, o); }
        if q :| q in after && q.owner == o && q.item == x { assert q in RowsOf(rows, o); }
      }
    }
  }

  /** The dates and the score of a link: the first date is that of the first access, the rest is that of the last. */
  lemma LinkDates(rows: set<Row<Relevance>>, ctx: Id, r: Id, score: real, now: int, q: Row<Relevance>)
    requires KeyUnique(rows)
    requires q in Link(rows, ctx, r, score, now) && q.owner == ctx && q.item == r
    ensures q.data.score == score && q.data.last == now
    ensures forall p :: p in rows && p.owner == ctx && p.item == r ==> q.data.first == p.data.first
    ensures r !in Items(rows, ctx) ==> q.data.first == now
  {
  }

  /** The loop over the context's present resources. A failed upsert is logged and skipped. */
  method ConnectToMembers(edges: Edges, members: set<Id>, r: Id, fails: Faults, calls: nat)
    returns (e: Edges, clean: bool, after: nat)
    ensures calls <= after && (clean <==> Smooth(fails, calls, after))
    ensures clean ==> e == Connected(edges, members, r)
    ensures forall s, t :: Weight(edges, s, t) <= Weight(e, s, t) <= Weight(Connected(edges, members, r), s, t)
  {
    e, clean, after := edges, true, calls;
    var todo := members;
    assert Connected(edges, members - todo, r) == edges;
    while todo != {}
      invariant todo <= members
      invariant calls <= after && (clean <==> Smooth(fails, calls, after))
      invariant clean ==> e == Connected(edges, members - todo, r)
      invariant forall s, t ::
                  Weight(edges, s, t) <= Weight(e, s, t) <= Weight(Connected(edges, members - todo, r), s, t)
      decreases todo
    {
      var m :| m in todo;
      assert members - (todo - {m}) == (members - todo) + {m};
      ConnectOne(edges, members - todo, r, m);
      if m != r {
        if fails(after) {
          clean := false;
        } else {
          e := UpsertEdge(e, r, m);
        }
        after := after + 1;
      }
      todo := todo - {m};
    }
    assert members - todo == members;
  }

  lemma ConnectOne(e: Edges, done: set<Id>, r: Id, m: Id)
    requires m !in done
    ensures Connected(e, done + {m}, r)
         == if m == r then Connected(e, done, r) else UpsertEdge(Connected(e, done, r), r, m)
    ensures m != r ==> Weight(Connected(e, done, r), r, m) == Weight(e, r, m)
  {
  }

  // ---- Whole runs of accesses ----

  function Step(g: Graph, a: Access): Graph
    requires KeyUnique(g.rows)
  {
    Graph(Connected(g.edges, Items(g.rows, a.ctx), a.resource), Link(g.rows, a.ctx, a.resource, 0.5, a.at))
  }

  /** The graph and the links after the accesses, from the tables in `g`. */
  function Run(g: Graph, log: seq<Access>): (h: Graph)
    requires KeyUnique(g.rows)
    ensures KeyUnique(h.rows)
    decreases |log|
  {
    if log == [] then g
    else
      var h := Run(g, log[..|log| - 1]);
      var a := log[|log| - 1];
      assert KeyUnique(Step(h, a).rows) by { LinkMeaning(h.rows, a.ctx, a.resource, 0.5, a.at); }
      Step(h, a)
  }

  const EMPTY_GRAPH: Graph := Graph(map[], {})

  ghost predicate Joined(e: Edges, r: Id, s: Id) {
    (r, s) in e || (s, r) in e
  }

  /** Any two resources of one context are neighbours. */
  ghost predicate Cliques(g: Graph) {
    forall c, r, s :: r in Items(g.rows, c) && s in Items(g.rows, c) && r != s ==> Joined(g.edges, r, s)
  }

  ghost predicate NoSelfEdges(e: Edges) {
    forall r :: (r, r) !in e
  }

  /** What holds of the tables as long as every edge upsert succeeds and nothing is merged. */
  ghost predicate Meshed(g: Graph) {
    KeyUnique(g.rows) && Cliques(g) && NoSelfEdges(g.edges)
  }

  /** Every run of accesses keeps all contexts cliques; from empty tables it makes them. */
  lemma {:induction false} RunsFormCliques(g: Graph, log: seq<Access>)
    requires Meshed(g)
    ensures Meshed(Run(g, log))
    decreases |log|
  {
    if log == [] {
    } else {
      RunsFormCliques(g, log[..|log| - 1]);
      AccessKeepsMesh(Run(g, log[..|log| - 1]), log[|log| - 1]);
    }
  }

  lemma AccessKeepsMesh(g: Graph, a: Access)
    requires Meshed(g)
    ensures Meshed(Step(g, a))
  {
    var after := Step(g, a);
    LinkMeaning(g.rows, a.ctx, a.resource, 0.5, a.at);
    forall c, r, s | r in Items(after.rows, c) && s in Items(after.rows, c) && r != s
      ensures Joined(after.edges, r, s)
    {
      if r in Items(g.rows, c) && s in Items(g.rows, c) {
        assert Joined(g.edges, r, s);
      } else {
        assert c == a.ctx;
        var other := if r == a.resource then s else r;
        assert other in Items(g.rows, c);
        assert (a.resource, other) in after.edges;
      }
    }
  }

  /** `after` continues `before`, and the new accesses lead from the tables `g` to the tables `h`. */
  ghost predicate Grown(g: Graph, before: seq<Access>, h: Graph, after: seq<Access>) {
    KeyUnique(g.rows) && before <= after && h == Run(g, after[|before|..])
  }

  lemma NotGrown(g: Graph, log: seq<Access>)
    requires KeyUnique(g.rows)
    ensures Grown(g, log, g, log)
  {
    assert log[|log|..] == [];
  }

  lemma GrownOnce(g: Graph, log: seq<Access>, a: Access)
    requires KeyUnique(g.rows)
    ensures Grown(g, log, Step(g, a), log + [a])
  {
    assert (log + [a])[|log|..] == [a] && [a][..0] == [];
  }

  lemma {:induction false} RunSplits(g: Graph, a: seq<Access>, b: seq<Access>)
    requires KeyUnique(g.rows)
    ensures Run(g, a + b) == Run(Run(g, a), b)
    decreases |b|
  {
    if b == [] {
      assert a + b == a;
    } else {
      var n := |b| - 1;
      assert (a + b)[..|a + b| - 1] == a + b[..n] && (a + b)[|a + b| - 1] == b[n];
      RunSplits(g, a, b[..n]);
    }
  }

  lemma SuffixSplits<T>(x: seq<T>, y: seq<T>, z: seq<T>)
    requires x <= y <= z
    ensures x <= z && z[|x|..] == y[|x|..] + z[|y|..]
  {
    assert z == y + z[|y|..];
  }

  lemma GrownTrans(g: Graph, x: seq<Access>, h: Graph, y: seq<Access>, i: Graph, z: seq<Access>)
    requires Grown(g, x, h, y) && Grown(h, y, i, z)
    ensures Grown(g, x, i, z)
  {
    hide Run;
    SuffixSplits(x, y, z);
    RunSplits(g, y[|x|..], z[|y|..]);
  }

  lemma GrownKeepsMesh(g: Graph, x: seq<Access>, h: Graph, y: seq<Access>)
    requires Grown(g, x, h, y) && Meshed(g)
    ensures Meshed(h)
  {
    RunsFormCliques(g, y[|x|..]);
  }

  /** Access n touched r while s was already in the accessed context. */
  ghost predicate Counts(g: Graph, log: seq<Access>, n: nat, r: Id, s: Id)
    requires n < |log|
  {
    && log[n].resource == r && r != s
    && (s in Items(g.rows, log[n].ctx) || Accessed(log, n, log[n].ctx, s))
  }

  /** One of the first n accesses put x into the context c. */
  ghost predicate Accessed(log: seq<Access>, n: nat, c: Id, x: Id)
    requires n <= |log|
  {
    exists k :: 0 <= k < n && log[k].ctx == c && log[k].resource == x
  }

  lemma AccessedSnoc(log: seq<Access>, c: Id, x: Id)
    requires log != []
    ensures var n := |log| - 1;
            Accessed(log, n + 1, c, x) <==> Accessed(log[..n], n, c, x) || (log[n].ctx == c && log[n].resource == x)
  {
    AccessedPrefix(log, |log| - 1, c, x);
  }

  lemma AccessedPrefix(log: seq<Access>, n: nat, c: Id, x: Id)
    requires n <= |log|
    ensures Accessed(log[..n], n, c, x) <==> Accessed(log, n, c, x)
  {
    if k :| 0 <= k < n && log[k].ctx == c && log[k].resource == x {
      assert log[..n][k] == log[k];
    }
  }

  /** A context holds what it held before and what was accessed in it. */
  lemma {:induction false} RunMembers(g: Graph, log: seq<Access>, c: Id, x: Id)
    requires KeyUnique(g.rows)
    ensures x in Items(Run(g, log).rows, c) <==> x in Items(g.rows, c) || Accessed(log, |log|, c, x)
    decreases |log|
  {
    if log == [] {
    } else {
      var n := |log| - 1;
      var a, h := log[n], Run(g, log[..n]);
      RunMembers(g, log[..n], c, x);
      LinkMeaning(h.rows, a.ctx, a.resource, 0.5, a.at);
      AccessedSnoc(log, c, x);
    }
  }

  /** An edge's weight grows by the number of such accesses. */
  lemma {:induction false} WeightCountsAccesses(g: Graph, log: seq<Access>, r: Id, s: Id)
    requires KeyUnique(g.rows)
    ensures Weight(Run(g, log).edges, r, s) == Weight(g.edges, r, s) + |Hits(g, log, r, s)|
    decreases |log|
  {
    if log == [] {
    } else {
      var n := |log| - 1;
      WeightCountsAccesses(g, log[..n], r, s);
      HitsSnoc(g, log, r, s);
      StepWeight(Run(g, log[..n]), log[n], r, s);
      AlreadyThere(g, log, r, s);
    }
  }

  /** What the tables have grown by: each weight by its accesses. */
  lemma GrownWeights(g: Graph, x: seq<Access>, h: Graph, y: seq<Access>, r: Id, s: Id)
    requires Grown(g, x, h, y)
    ensures Weight(h.edges, r, s) == Weight(g.edges, r, s) + |Hits(g, y[|x|..], r, s)|
  {
    WeightCountsAccesses(g, y[|x|..], r, s);
  }

  lemma AlreadyThere(g: Graph, log: seq<Access>, r: Id, s: Id)
    requires log != [] && KeyUnique(g.rows)
    ensures var n := |log| - 1;
            Counts(g, log, n, r, s) <==> log[n].resource == r && r != s && s in Items(Run(g, log[..n]).rows, log[n].ctx)
  {
    var n := |log| - 1;
    RunMembers(g, log[..n], log[n].ctx, s);
    AccessedPrefix(log, n, log[n].ctx, s);
  }

  ghost function Hits(g: Graph, log: seq<Access>, r: Id, s: Id): set<int> {
    set n | 0 <= n < |log| && Counts(g, log, n, r, s)
  }

  lemma HitsSnoc(g: Graph, log: seq<Access>, r: Id, s: Id)
    requires log != []
    ensures var n := |log| - 1;
            |Hits(g, log, r, s)| == |Hits(g, log[..n], r, s)| + if Counts(g, log, n, r, s) then 1 else 0
  {
    var n := |log| - 1;
    forall k | 0 <= k < n ensures Counts(g, log[..n], k, r, s) <==> Counts(g, log, k, r, s) {
      AccessedPrefix(log, k, log[k].ctx, s);
      AccessedPrefix(log[..n], k, log[k].ctx, s);
      assert log[..n][..k] == log[..k];
    }
    assert Hits(g, log, r, s) == Hits(g, log[..n], r, s) + if Counts(g, log, n, r, s) then {n} else {};
  }

  lemma StepWeight(g: Graph, a: Access, r: Id, s: Id)
    requires KeyUnique(g.rows)
    ensures Weight(Step(g, a).edges, r, s)
         == Weight(g.edges, r, s) + if a.resource == r && r != s && s in Items(g.rows, a.ctx) then 1 else 0
  {
  }

  /** get_neighbors: both directions, as UNION ALL keeps them. */
  ghost function Neighbors(e: Edges, r: Id): multiset<(Id, nat)> {
    multiset(set p | p in e && p.0 == r :: (p.1, e[p])) + multiset(set p | p in e && p.1 == r :: (p.0, e[p]))
  }

  lemma NeighborsAreSymmetric(e: Edges, r: Id, s: Id, w: nat)
    ensures Neighbors(e, r)[(s, w)] == Neighbors(e, s)[(r, w)]
  {
    NeighborCount(e, r, s, w);
    NeighborCount(e, s, r, w);
  }

  lemma NeighborCount(e: Edges, r: Id, s: Id, w: nat)
    ensures Neighbors(e, r)[(s, w)]
         == (if (r, s) in e && e[(r, s)] == w then 1 else 0) + (if (s, r) in e && e[(s, r)] == w then 1 else 0)
  {
    var outgoing := set p | p in e && p.0 == r :: (p.1, e[p]);
    var incoming := set p | p in e && p.1 == r :: (p.0, e[p]);
    assert (s, w) in outgoing <==> (r, s) in e && e[(r, s)] == w by {
      if (r, s) in e && e[(r, s)] == w { assert (r, s).1 == s; }
    }
    assert (s, w) in incoming <==> (s, r) in e && e[(s, r)] == w by {
      if (s, r) in e && e[(s, r)] == w { assert (s, r).0 == s; }
    }
  }

  /**
   Merging adds no edges, so it keeps the cliques exactly when the resources of
   the two contexts were already joined across.
   */
  lemma MergeKeepsCliquesIff(g: Graph, keep: Id, remove: Id)
    requires KeyUnique(g.rows) && Cliques(g) && keep != remove
    ensures Cliques(Graph(g.edges, Merged(g.rows, keep, remove)))
       <==> forall r, s :: r in Items(g.rows, keep) && s in Items(g.rows, remove) && r != s ==> Joined(g.edges, r, s)
  {
    var m := Merged(g.rows, keep, remove);
    MergedMeaning(g.rows, keep, remove);
    forall o | o != keep && o != remove ensures Items(m, o) == Items(g.rows, o) {
      assert RowsOf(m, o) == RowsOf(g.rows, o);
      forall x ensures x in Items(m, o) <==> x in Items(g.rows, o) {
        if q :| q in g.rows && q.owner == o && q.item == x { assert q in RowsOf(m, o); }
        if q :| q in m && q.owner == o && q.item == x { assert q in RowsOf(g.rows, o); }
      }
    }
  }

  /** Two accesses in two contexts, reached from empty tables: merging the contexts breaks the clique. */
  lemma MergeCanBreakAClique()
    ensures var g := Run(EMPTY_GRAPH, [Access("a", "x", 0), Access("b", "y", 0)]);
            Cliques(g) && !Cliques(Graph(g.edges, Merged(g.rows, "a", "b")))
  {
    var log := [Access("a", "x", 0), Access("b", "y", 0)];
    var none, one, g := EMPTY_GRAPH, Run(EMPTY_GRAPH, log[..1]), Run(EMPTY_GRAPH, log);
    assert log[..1][..0] == [] && log[..1][0] == log[0] && log[..|log| - 1] == log[..1];
    assert Run(EMPTY_GRAPH, []) == none;
    assert one == Step(none, log[0]);
    assert g == Step(one, log[1]);
    LinkMeaning(none.rows, "a", "x", 0.5, 0);
    LinkMeaning(one.rows, "b", "y", 0.5, 0);
    RunsFormCliques(EMPTY_GRAPH, log);
    assert Items(g.rows, "a") == {"x"} && Items(g.rows, "b") == {"y"};
    assert !Joined(g.edges, "x", "y");
    MergeKeepsCliquesIff(g, "a", "b");
  }
}
