/** SELECT .. ORDER BY key LIMIT n over a set of ids. */
module Listing {
  import opened Basics

  ghost predicate Ordered(s: seq<Id>, key: Id -> int) {
    forall i, j :: 0 <= i < j < |s| ==> s[i] != s[j] && key(s[i]) <= key(s[j])
  }

  /** A distinct, ordered choice of at most `limit` ids, none of which is beaten by one left out. */
  ghost predicate Lists(s: seq<Id>, ids: set<Id>, key: Id -> int, limit: nat) {
    && Ordered(s, key)
    && |s| <= limit
    && (forall e :: e in s ==> e in ids)
    && (|s| < limit ==> forall e :: e in ids ==> e in s)
    && (forall e, f :: e in s && f in ids && f !in s ==> key(e) <= key(f))
  }

  ghost function NoLater(ids: set<Id>, key: Id -> int, e: Id): set<Id> {
    set f | f in ids && f != e && key(f) <= key(e)
  }

  ghost function Earlier(ids: set<Id>, key: Id -> int, e: Id): set<Id> {
    set f | f in ids && key(f) < key(e)
  }

  /** With fewer than `limit` others that come no later an id is listed; with `limit` that come earlier it is not. */
  lemma ListedByRank(s: seq<Id>, ids: set<Id>, key: Id -> int, limit: nat, e: Id)
    requires Lists(s, ids, key, limit) && e in ids
    ensures |NoLater(ids, key, e)| < limit ==> e in s
    ensures |Earlier(ids, key, e)| >= limit ==> e !in s
  {
    var listed := set f | f in s;
    SizeOfListed(s, key);
    if e !in s {
      assert listed <= NoLater(ids, key, e);
      SubsetIsSmaller(listed, NoLater(ids, key, e));
    } else {
      assert Earlier(ids, key, e) <= listed - {e};
      SubsetIsSmaller(Earlier(ids, key, e), listed - {e});
    }
  }

  lemma {:induction false} SizeOfListed(s: seq<Id>, key: Id -> int)
    requires Ordered(s, key)
    ensures |set c | c in s| == |s|
  {
    if s == [] {
    } else {
      var n := |s| - 1;
      SizeOfListed(s[..n], key);
      assert s[n] !in s[..n];
      assert s == s[..n] + [s[n]];
      assert (set c | c in s) == (set c | c in s[..n]) + {s[n]};
    }
  }

  lemma {:induction false} SubsetIsSmaller(a: set<Id>, b: set<Id>)
    requires a <= b
    ensures |a| <= |b|
  {
    assert b == a + (b - a);
  }

  method OrderedList(ids: set<Id>, key: Id -> int, limit: nat) returns (s: seq<Id>)
    ensures Lists(s, ids, key, limit)
  {
    s := [];
    var todo := ids;
    while todo != {} && |s| < limit
      invariant |s| <= limit && todo <= ids
      invariant forall e :: e in s <==> e in ids - todo
      invariant Ordered(s, key)
      invariant forall e, f :: e in s && f in todo ==> key(e) <= key(f)
      decreases todo
    {
      SmallestExists(todo, key);
      var e :| e in todo && forall f :: f in todo ==> key(e) <= key(f);
      OrderedSnoc(s, e, key);
      s := s + [e];
      todo := todo - {e};
    }
  }

  lemma OrderedSnoc(s: seq<Id>, e: Id, key: Id -> int)
    requires Ordered(s, key) && e !in s && forall d :: d in s ==> key(d) <= key(e)
    ensures Ordered(s + [e], key)
  {
    forall i, j | 0 <= i < j < |s + [e]|
        ensures (s + [e])[i] != (s + [e])[j] && key((s + [e])[i]) <= key((s + [e])[j]) {
      assert s[i] in s;
    }
  }

  lemma SmallestExists(ids: set<Id>, key: Id -> int)
    requires ids != {}
    ensures exists e :: e in ids && forall f :: f in ids ==> key(e) <= key(f)
  {
    var e :| e in ids;
    if ids != {e} {
      SmallestExists(ids - {e}, key);
      var m :| m in ids - {e} && forall f :: f in ids - {e} ==> key(m) <= key(f);
      var best := if key(m) <= key(e) then m else e;
      assert forall f :: f in ids ==> f == e || f in ids - {e};
      assert best in ids && forall f :: f in ids ==> key(best) <= key(f);
    }
  }
}
