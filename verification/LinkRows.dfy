/**
 The link tables work_context_resources and work_context_actions, and the
 three statements that the merge transaction runs on each of them.

 A table is a set of rows; its primary key is (owner, item).
 */
module LinkRows {
  import opened Basics

  datatype Row<P> = Row(owner: Id, item: Id, data: P)

  /** PRIMARY KEY (context_id, resource_id): a key determines its row. */
  ghost predicate KeyUnique<P>(t: set<Row<P>>) {
    forall r, s :: r in t && s in t && r.owner == s.owner && r.item == s.item ==> r == s
  }

  function Items<P(==)>(t: set<Row<P>>, owner: Id): set<Id> {
    set r | r in t && r.owner == owner :: r.item
  }

  function RowsOf<P(==)>(t: set<Row<P>>, owner: Id): set<Row<P>> {
    set r | r in t && r.owner == owner
  }

  /** One row visited by UPDATE OR IGNORE: it moves unless its new key is taken. */
  function MoveOrIgnore<P(==)>(t: set<Row<P>>, keep: Id, r: Row<P>): set<Row<P>> {
    if r.item in Items(t, keep) then t else t - {r} + {r.(owner := keep)}
  }

  /** The set-level meaning of the whole transfer from `remove` to `keep`. */
  function Merged<P(==)>(t: set<Row<P>>, keep: Id, remove: Id): set<Row<P>> {
    (set r | r in t && r.owner != remove)
    + (set r | r in t && r.owner == remove && r.item !in Items(t, keep) :: r.(owner := keep))
  }

  /** UPDATE OR IGNORE t SET owner = keep WHERE owner = remove: the rows in any order. */
  method UpdateOrIgnore<P(==)>(table: set<Row<P>>, keep: Id, remove: Id) returns (t: set<Row<P>>)
    requires KeyUnique(table) && keep != remove
    ensures KeyUnique(t)
    ensures DeleteOwnerSpec(t, remove) == Merged(table, keep, remove)
    ensures RowsOf(t, remove) == (set r | r in table && r.owner == remove && r.item in Items(table, keep))
  {
    t := table;
    var todo := RowsOf(table, remove);
    while todo != {}
      invariant KeyUnique(t)
      invariant todo <= RowsOf(t, remove) <= RowsOf(table, remove)
      invariant forall r :: r in RowsOf(t, remove) - todo ==> r.item in Items(table, keep)
      invariant forall r :: r in RowsOf(table, remove) && r.item in Items(table, keep) ==> r in t
      invariant DeleteOwnerSpec(t, remove) == MergedSoFar(table, keep, remove, todo)
      decreases todo
    {
      var r :| r in todo;
      MoveStep(table, keep, remove, t, todo, r);
      TakenMeansTaken(table, keep, remove, t, todo, r);
      t := MoveOrIgnore(t, keep, r);
      todo := todo - {r};
    }
    assert MergedSoFar(table, keep, remove, todo) == Merged(table, keep, remove);
  }

  /** DELETE FROM t WHERE owner = remove. */
  method DeleteOwner<P(==)>(table: set<Row<P>>, owner: Id) returns (t: set<Row<P>>)
    ensures t == DeleteOwnerSpec(table, owner)
  {
    t := table;
    var todo := RowsOf(table, owner);
    while todo != {}
      invariant todo <= RowsOf(table, owner)
      invariant t == table - (RowsOf(table, owner) - todo)
      decreases todo
    {
      var r :| r in todo;
      t := t - {r};
      todo := todo - {r};
    }
  }

  function DeleteOwnerSpec<P(==)>(t: set<Row<P>>, owner: Id): set<Row<P>> {
    set r | r in t && r.owner != owner
  }

  /** What the table without `remove` looks like while the rows `todo` still wait. */
  ghost function MergedSoFar<P>(t: set<Row<P>>, keep: Id, remove: Id, todo: set<Row<P>>): set<Row<P>> {
    DeleteOwnerSpec(t, remove)
    + (set r | r in t && r.owner == remove && r !in todo && r.item !in Items(t, keep) :: r.(owner := keep))
  }

  /** One visited row keeps the key unique and moves exactly one row of the specification. */
  lemma MoveStep<P>(table: set<Row<P>>, keep: Id, remove: Id, t: set<Row<P>>, todo: set<Row<P>>, r: Row<P>)
    requires KeyUnique(table) && KeyUnique(t) && keep != remove
    requires todo <= RowsOf(t, remove) <= RowsOf(table, remove) && r in todo
    requires forall q :: q in RowsOf(t, remove) - todo ==> q.item in Items(table, keep)
    requires DeleteOwnerSpec(t, remove) == MergedSoFar(table, keep, remove, todo)
    ensures KeyUnique(MoveOrIgnore(t, keep, r))
    ensures todo - {r} <= RowsOf(MoveOrIgnore(t, keep, r), remove) <= RowsOf(table, remove)
    ensures forall q :: q in RowsOf(MoveOrIgnore(t, keep, r), remove) - (todo - {r}) ==> q.item in Items(table, keep)
    ensures DeleteOwnerSpec(MoveOrIgnore(t, keep, r), remove) == MergedSoFar(table, keep, remove, todo - {r})
  {
    var m := r.(owner := keep);
    TakenMeansTaken(table, keep, remove, t, todo, r);
    if r.item in Items(table, keep) {
      assert MergedSoFar(table, keep, remove, todo - {r}) == MergedSoFar(table, keep, remove, todo);
    } else {
      assert MergedSoFar(table, keep, remove, todo - {r}) == MergedSoFar(table, keep, remove, todo) + {m};
      assert DeleteOwnerSpec(t - {r} + {m}, remove) == DeleteOwnerSpec(t, remove) + {m};
    }
  }

  /** Rows moved earlier never make the key of a waiting row taken. */
  lemma TakenMeansTaken<P>(table: set<Row<P>>, keep: Id, remove: Id, t: set<Row<P>>, todo: set<Row<P>>, r: Row<P>)
    requires KeyUnique(table) && keep != remove
    requires todo <= RowsOf(table, remove) && r in todo
    requires DeleteOwnerSpec(t, remove) == MergedSoFar(table, keep, remove, todo)
    ensures r.item in Items(t, keep) <==> r.item in Items(table, keep)
  {
    if r.item in Items(table, keep) {
      var q :| q in table && q.owner == keep && q.item == r.item;
      assert q in MergedSoFar(table, keep, remove, todo);
      assert q in t;
    }
    if r.item in Items(t, keep) {
      var q :| q in t && q.owner == keep && q.item == r.item;
      assert q in DeleteOwnerSpec(t, remove);
      assert q in MergedSoFar(table, keep, remove, todo);
    }
  }

  /** What the transfer means to a reader of the table. */
  lemma MergedMeaning<P>(t: set<Row<P>>, keep: Id, remove: Id)
    requires KeyUnique(t) && keep != remove
    ensures KeyUnique(Merged(t, keep, remove))
    ensures Items(Merged(t, keep, remove), keep) == Items(t, keep) + Items(t, remove)
    ensures Items(Merged(t, keep, remove), remove) == {}
    ensures RowsOf(t, keep) <= RowsOf(Merged(t, keep, remove), keep)
    ensures forall o :: o != keep && o != remove ==> RowsOf(Merged(t, keep, remove), o) == RowsOf(t, o)
    ensures forall r :: r in Merged(t, keep, remove) ==> r in t || (r.owner == keep && r.(owner := remove) in t)
  {
    var m := Merged(t, keep, remove);
    forall x | x in Items(t, keep) + Items(t, remove) ensures x in Items(m, keep) {
      if x in Items(t, keep) {
        var r :| r in t && r.owner == keep && r.item == x;
        assert r in m;
      } else {
        var r :| r in t && r.owner == remove && r.item == x;
        assert r.(owner := keep) in m;
      }
    }
  }

  /** Rows visited in the given order. */
  function UpdateInOrder<P(==)>(t: set<Row<P>>, keep: Id, order: seq<Row<P>>): set<Row<P>>
    decreases |order|
  {
    if order == [] then t else UpdateInOrder(MoveOrIgnore(t, keep, order[0]), keep, order[1..])
  }

  /** Whatever order the engine visits the rows in, update and delete yield the same table. */
  lemma {:induction false} AnyRowOrder<P>(table: set<Row<P>>, keep: Id, remove: Id, order: seq<Row<P>>)
    requires KeyUnique(table) && keep != remove
    requires (set r | r in order) == RowsOf(table, remove)
    requires forall i, j :: 0 <= i < j < |order| ==> order[i] != order[j]
    ensures DeleteOwnerSpec(UpdateInOrder(table, keep, order), remove) == Merged(table, keep, remove)
  {
    AnyRowOrderFrom(table, keep, remove, table, order);
  }

  lemma {:induction false} AnyRowOrderFrom<P>(table: set<Row<P>>, keep: Id, remove: Id, t: set<Row<P>>,
                                              order: seq<Row<P>>)
    requires KeyUnique(table) && KeyUnique(t) && keep != remove
    requires (set r | r in order) <= RowsOf(t, remove) <= RowsOf(table, remove)
    requires forall q :: q in RowsOf(t, remove) && q !in order ==> q.item in Items(table, keep)
    requires forall i, j :: 0 <= i < j < |order| ==> order[i] != order[j]
    requires DeleteOwnerSpec(t, remove) == MergedSoFar(table, keep, remove, set r | r in order)
    ensures DeleteOwnerSpec(UpdateInOrder(t, keep, order), remove) == Merged(table, keep, remove)
    decreases |order|
  {
    var todo := set r | r in order;
    if order == [] {
      assert MergedSoFar(table, keep, remove, todo) == Merged(table, keep, remove);
    } else {
      MoveStep(table, keep, remove, t, todo, order[0]);
      assert (set r | r in order[1..]) == todo - {order[0]};
      AnyRowOrderFrom(table, keep, remove, MoveOrIgnore(t, keep, order[0]), order[1..]);
    }
  }
}
