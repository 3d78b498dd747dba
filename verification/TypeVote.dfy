/** The vote of a context's latest events on its type. */
module TypeVote {
  import opened Basics
  import opened Listing
  import opened Tables

  const GENERAL: string := "general"

  /** At most this many events of a context are asked. */
  const VOTERS: nat := 5

  /** What an event says about its type, and the colour each type is shown in. */
  datatype Typing = Typing(infer: LogRow -> string, color: string -> string)

  function LatestFirst(log: map<Id, LogRow>): Id -> int {
    e => if e in log then -log[e].timestamp else 0
  }

  ghost predicate AllStored(log: map<Id, LogRow>, events: seq<Id>) { forall e :: e in events ==> e in log }

  /** WHERE work_context_id = id ORDER BY timestamp DESC LIMIT 5. */
  ghost predicate Asked(log: map<Id, LogRow>, id: Id, events: seq<Id>) {
    AllStored(log, events) && Lists(events, RowsAssigned(log, id), LatestFirst(log), VOTERS)
  }

  /** At most five, no two alike, all of the context, and none left out is later than one asked. */
  lemma AskedAreLatest(log: map<Id, LogRow>, id: Id, events: seq<Id>)
    requires Asked(log, id, events)
    ensures |events| <= 5 && forall i, j :: 0 <= i < j < |events| ==> events[i] != events[j]
    ensures forall e :: e in events ==> e in log && log[e].workContext == Some(id)
    ensures forall e, f :: e in events && f !in events && f in log && log[f].workContext == Some(id) ==>
              |events| == 5 && log[e].timestamp >= log[f].timestamp
  {
    forall e, f | e in events && f !in events && f in log && log[f].workContext == Some(id)
      ensures |events| == 5 && log[e].timestamp >= log[f].timestamp
    {
      assert f in RowsAssigned(log, id);
      assert LatestFirst(log)(e) <= LatestFirst(log)(f);
    }
  }

  function Votes(ty: Typing, log: map<Id, LogRow>, events: seq<Id>, t: string): nat
    requires AllStored(log, events)
  {
    if events == [] then 0
    else
      var n := |events| - 1;
      Votes(ty, log, events[..n], t) + if ty.infer(log[events[n]]) == t then 1 else 0
  }

  /** No type has more votes; of several such types the code may take any. */
  ghost predicate Wins(ty: Typing, log: map<Id, LogRow>, events: seq<Id>, t: string)
    requires AllStored(log, events)
  {
    Votes(ty, log, events, t) > 0 && forall u :: Votes(ty, log, events, u) <= Votes(ty, log, events, t)
  }

  function WithType(ty: Typing, ctx: Context, t: string): Context {
    if t == GENERAL then ctx else ctx.(decor := ctx.decor.(contextType := t, color := Some(ty.color(t))))
  }

  /** What the vote makes of a row: only active general contexts are put to it, and without events nothing changes. */
  ghost predicate Reclassified(ty: Typing, log: map<Id, LogRow>, id: Id, was: Context, now: Context) {
    if was.status != Active || was.decor.contextType != GENERAL then now == was
    else exists events :: Asked(log, id, events) && VotedBy(ty, log, events, was, now)
  }

  ghost predicate VotedBy(ty: Typing, log: map<Id, LogRow>, events: seq<Id>, was: Context, now: Context)
    requires AllStored(log, events)
  {
    if events == [] then now == was
    else exists t :: Wins(ty, log, events, t) && now == WithType(ty, was, t)
  }

  lemma AskedAreStored(log: map<Id, LogRow>, id: Id, events: seq<Id>)
    requires Asked(log, id, events)
    ensures AllStored(log, events)
  {
  }

  lemma NoVote(ty: Typing, log: map<Id, LogRow>, id: Id, ctx: Context)
    ensures ctx.decor.contextType != GENERAL || Asked(log, id, []) ==> Reclassified(ty, log, id, ctx, ctx)
  {
    if Asked(log, id, []) { assert VotedBy(ty, log, [], ctx, ctx); }
  }

  lemma VoteMeaning(ty: Typing, log: map<Id, LogRow>, id: Id, events: seq<Id>, ctx: Context, t: string)
    requires Asked(log, id, events) && events != [] && Wins(ty, log, events, t)
    requires ctx.status == Active && ctx.decor.contextType == GENERAL
    ensures Reclassified(ty, log, id, ctx, WithType(ty, ctx, t))
  {
    assert VotedBy(ty, log, events, ctx, WithType(ty, ctx, t));
  }

  /** A row that changes gets the winning type and its colour, and keeps everything else. */
  lemma RetypedRow(ty: Typing, log: map<Id, LogRow>, events: seq<Id>, was: Context, now: Context)
    requires AllStored(log, events) && VotedBy(ty, log, events, was, now) && now != was
    ensures now.decor.contextType != "general" && now.decor.color == Some(ty.color(now.decor.contextType))
    ensures Wins(ty, log, events, now.decor.contextType)
    ensures now == was.(decor := now.decor)
    ensures now.decor.tags == was.decor.tags && now.decor.description == was.decor.description
  {
  }

  /** The counts of the types that got a vote. */
  method CountVotes(ty: Typing, log: map<Id, LogRow>, events: seq<Id>) returns (counts: map<string, nat>)
    requires AllStored(log, events)
    ensures forall t :: Votes(ty, log, events, t) == if t in counts then counts[t] else 0
    ensures forall t :: t in counts ==> counts[t] > 0
    ensures events != [] ==> counts != map[]
  {
    counts := map[];
    for i := 0 to |events|
      invariant AllStored(log, events[..i])
      invariant forall t :: Votes(ty, log, events[..i], t) == if t in counts then counts[t] else 0
      invariant forall t :: t in counts ==> counts[t] > 0
      invariant i > 0 ==> counts != map[]
    {
      assert events[i] in events && events[..i + 1][..i] == events[..i];
      var inferred := ty.infer(log[events[i]]);
      counts := counts[inferred := (if inferred in counts then counts[inferred] else 0) + 1];
      assert inferred in counts;
    }
    assert events[..|events|] == events;
  }

  /** max_by_key over a hash map: the keys come in any order, and a later one wins a tie. */
  method MostVotes(counts: map<string, nat>) returns (best: string)
    requires counts != map[]
    ensures best in counts && forall t :: t in counts ==> counts[t] <= counts[best]
  {
    best :| best in counts;
    var todo := counts.Keys - {best};
    while todo != {}
      invariant todo <= counts.Keys && best in counts
      invariant forall t :: t in counts.Keys - todo ==> counts[t] <= counts[best]
      decreases todo
    {
      var t :| t in todo;
      if counts[t] >= counts[best] { best := t; }
      todo := todo - {t};
    }
  }

  /** The winning type of a vote. */
  method Vote(ty: Typing, log: map<Id, LogRow>, events: seq<Id>) returns (best: string)
    requires AllStored(log, events) && events != []
    ensures Wins(ty, log, events, best)
  {
    var counts := CountVotes(ty, log, events);
    best := MostVotes(counts);
  }

  lemma {:induction false} TwoTypesShareTheVotes(ty: Typing, log: map<Id, LogRow>, events: seq<Id>, t: string,
                                                 u: string)
    requires AllStored(log, events) && t != u
    ensures Votes(ty, log, events, t) + Votes(ty, log, events, u) <= |events|
  {
    if events == [] {
    } else {
      TwoTypesShareTheVotes(ty, log, events[..|events| - 1], t, u);
    }
  }

  /** A type named by more than half of the events wins, in whatever order the map is read. */
  lemma StrictMajorityWins(ty: Typing, log: map<Id, LogRow>, events: seq<Id>, t: string, u: string)
    requires AllStored(log, events) && 2 * Votes(ty, log, events, t) > |events|
    ensures Wins(ty, log, events, u) <==> u == t
  {
    forall x | x != t ensures Votes(ty, log, events, x) < Votes(ty, log, events, t) {
      TwoTypesShareTheVotes(ty, log, events, t, x);
    }
  }
}
