/**
 The forwarder task of one subagent: it turns engine events into entries of the
 shared progress map and into Progress lifecycle events.
 */
module ProgressForwarder {
  import opened Basics

  datatype AgentEvent = IterationStart(iteration: nat) | ToolStart(name: string) | Other

  /** The live snapshot kept for an agent. */
  datatype Snapshot = Snapshot(iteration: nat, lastTool: Option<string>)

  datatype Progress = Progress(agentId: Id, iteration: nat, lastTool: Option<string>)

  /** The engine counts in 64 bits; the map and the events keep 32. */
  function AsU32(n: nat): nat { n % 0x1_0000_0000 }

  /** Counts below 2^32 are kept, and larger ones lose whole multiples of it. */
  lemma U32Meaning(n: nat, k: nat)
    ensures n < 0x1_0000_0000 ==> AsU32(n + k * 0x1_0000_0000) == n
  {
  }

  /** The name of the last tool started, or what was known before. */
  function LastTool(known: Option<string>, events: seq<AgentEvent>): Option<string> {
    if events == [] then known
    else
      var n := |events| - 1;
      if events[n].ToolStart? then Some(events[n].name) else LastTool(known, events[..n])
  }

  function LastIteration(known: nat, events: seq<AgentEvent>): nat {
    if events == [] then known
    else
      var n := |events| - 1;
      if events[n].IterationStart? then AsU32(events[n].iteration) else LastIteration(known, events[..n])
  }

  /** No event says anything about progress. */
  predicate Quiet(events: seq<AgentEvent>) { forall k :: 0 <= k < |events| ==> events[k].Other? }

  /** The snapshot after the events: untouched when none of them is relevant. */
  function Final(known: Option<Snapshot>, events: seq<AgentEvent>): Option<Snapshot> {
    var was := if known.Some? then known.value else Snapshot(0, None);
    if known.None? && Quiet(events) then None
    else Some(Snapshot(LastIteration(was.iteration, events), LastTool(was.lastTool, events)))
  }

  /** The positions of the iteration starts, in order. */
  function Starts(events: seq<AgentEvent>): (ps: seq<nat>)
    ensures forall k :: 0 <= k < |ps| ==> ps[k] < |events| && events[ps[k]].IterationStart?
  {
    if events == [] then []
    else
      var n := |events| - 1;
      Starts(events[..n]) + if events[n].IterationStart? then [n] else []
  }

  /** One Progress event per iteration start, each with the last tool started before it. */
  function Emitted(agentId: Id, known: Option<string>, events: seq<AgentEvent>): seq<Progress> {
    var ps := Starts(events);
    seq(|ps|, k requires 0 <= k < |ps| =>
      Progress(agentId, AsU32(events[ps[k]].iteration), LastTool(known, events[..ps[k]])))
  }

  function KnownTool(s: Option<Snapshot>): Option<string> {
    if s.Some? then s.value.lastTool else None
  }

  function Entry(m: map<Id, Snapshot>, id: Id): Option<Snapshot> {
    if id in m then Some(m[id]) else None
  }

  // ---- What the projections mean ----

  /** The last tool is the one of the last ToolStart; without one, nothing changes. */
  lemma {:induction false} LastToolMeaning(known: Option<string>, events: seq<AgentEvent>)
    ensures ToolUsedLast(events, LastTool(known, events))
         || (LastTool(known, events) == known && forall k :: 0 <= k < |events| ==> !events[k].ToolStart?)
  {
    if events == [] {
    } else {
      var n: nat := |events| - 1;
      if events[n].ToolStart? {
        assert IsLastTool(events, n, Some(events[n].name));
        assert LastTool(known, events) == Some(events[n].name);
      } else {
        LastToolMeaning(known, events[..n]);
        var last := LastTool(known, events[..n]);
        assert LastTool(known, events) == last;
        if ToolUsedLast(events[..n], last) {
          var p: nat :| IsLastTool(events[..n], p, last);
          assert IsLastTool(events, p, last);
        }
      }
    }
  }

  /** Some ToolStart is the last one, and it names `tool`. */
  ghost predicate ToolUsedLast(events: seq<AgentEvent>, tool: Option<string>) {
    exists p: nat :: IsLastTool(events, p, tool)
  }

  ghost predicate IsLastTool(events: seq<AgentEvent>, p: nat, tool: Option<string>) {
    && p < |events| && events[p].ToolStart? && tool == Some(events[p].name)
    && forall k :: p < k < |events| ==> !events[k].ToolStart?
  }

  /** Starts lists every iteration start once, in stream order. */
  lemma {:induction false} StartsAreAll(events: seq<AgentEvent>)
    ensures forall i, j :: 0 <= i < j < |Starts(events)| ==> Starts(events)[i] < Starts(events)[j]
    ensures forall p: nat :: p < |events| && events[p].IterationStart? ==> p in Starts(events)
  {
    if events == [] {
    } else {
      var n := |events| - 1;
      StartsAreAll(events[..n]);
      forall p: nat | p < |events| && events[p].IterationStart? ensures p in Starts(events) {
        if p < n { assert events[..n][p] == events[p]; }
      }
    }
  }

  /**
   Each Progress event carries its agent, the count of its iteration start, and
   the tool of the last ToolStart before that start, or what was known at first.
   */
  lemma EmittedMeaning(agentId: Id, known: Option<string>, events: seq<AgentEvent>, k: nat)
    requires k < |Emitted(agentId, known, events)|
    ensures |Emitted(agentId, known, events)| == |Starts(events)|
    ensures var (e, p) := (Emitted(agentId, known, events)[k], Starts(events)[k]);
            && e.agentId == agentId && p < |events| && events[p].IterationStart?
            && (events[p].iteration < 0x1_0000_0000 ==> e.iteration == events[p].iteration)
            && (ToolUsedLast(events[..p], e.lastTool)
                || (e.lastTool == known && forall i :: 0 <= i < p ==> !events[i].ToolStart?))
  {
    var p := Starts(events)[k];
    U32Meaning(events[p].iteration, 0);
    LastToolMeaning(known, events[..p]);
    assert forall i :: 0 <= i < p ==> events[..p][i] == events[i];
  }

  lemma EmittedSnoc(agentId: Id, known: Option<string>, events: seq<AgentEvent>, e: AgentEvent)
    ensures Emitted(agentId, known, events + [e])
         == Emitted(agentId, known, events)
            + if e.IterationStart? then [Progress(agentId, AsU32(e.iteration), LastTool(known, events))] else []
  {
    var all := events + [e];
    assert all[..|events|] == events;
    forall k | 0 <= k < |Starts(events)|
      ensures Emitted(agentId, known, all)[k] == Emitted(agentId, known, events)[k]
    {
      var p := Starts(events)[k];
      assert Starts(all)[k] == p && all[..p] == events[..p];
    }
  }

  lemma LastSnoc(tool: Option<string>, iteration: nat, events: seq<AgentEvent>, e: AgentEvent)
    ensures LastTool(tool, events + [e]) == if e.ToolStart? then Some(e.name) else LastTool(tool, events)
    ensures LastIteration(iteration, events + [e])
         == if e.IterationStart? then AsU32(e.iteration) else LastIteration(iteration, events)
  {
    assert (events + [e])[..|events|] == events;
  }

  lemma QuietSnoc(events: seq<AgentEvent>, e: AgentEvent)
    ensures Quiet(events + [e]) <==> Quiet(events) && e.Other?
  {
    var all := events + [e];
    assert all[|events|] == e;
    assert forall k :: 0 <= k < |events| ==> all[k] == events[k];
  }

  lemma FinalSnoc(known: Option<Snapshot>, events: seq<AgentEvent>, e: AgentEvent)
    ensures var before := Final(known, events);
            Final(known, events + [e]) ==
              match e
              case IterationStart(n) => Some(Snapshot(AsU32(n), KnownTool(before)))
              case ToolStart(name) => Some(Snapshot(if before.Some? then before.value.iteration else 0, Some(name)))
              case Other => before
  {
    var was := if known.Some? then known.value else Snapshot(0, None);
    LastSnoc(was.lastTool, was.iteration, events, e);
    QuietSnoc(events, e);
    if Quiet(events) { NothingKnown(events); }
  }

  lemma {:induction false} NothingKnown(events: seq<AgentEvent>)
    requires Quiet(events)
    ensures LastTool(None, events) == None && LastIteration(0, events) == 0
  {
    if events == [] {
    } else {
      NothingKnown(events[..|events| - 1]);
    }
  }

  lemma KnownToolIsLast(known: Option<Snapshot>, events: seq<AgentEvent>)
    ensures KnownTool(Final(known, events)) == LastTool(KnownTool(known), events)
  {
    if known.None? && Quiet(events) {
      NothingKnown(events);
    }
  }

  /** Cutting the stream anywhere changes nothing: the second part starts from what the first left. */
  lemma {:induction false} StreamSplits(agentId: Id, known: Option<Snapshot>, a: seq<AgentEvent>, b: seq<AgentEvent>)
    ensures Final(known, a + b) == Final(Final(known, a), b)
    ensures Emitted(agentId, KnownTool(known), a + b)
         == Emitted(agentId, KnownTool(known), a) + Emitted(agentId, KnownTool(Final(known, a)), b)
    decreases |b|
  {
    if b == [] {
      assert a + b == a;
    } else {
      var n := |b| - 1;
      var c, e := b[..n], b[n];
      StreamSplits(agentId, known, a, c);
      assert a + b == (a + c) + [e] && b == c + [e];
      FinalSnoc(known, a + c, e);
      FinalSnoc(Final(known, a), c, e);
      EmittedSnoc(agentId, KnownTool(known), a + c, e);
      EmittedSnoc(agentId, KnownTool(Final(known, a)), c, e);
      KnownToolIsLast(known, a + c);
      KnownToolIsLast(Final(known, a), c);
    }
  }

  ghost predicate IsLastStart(events: seq<AgentEvent>, p: nat, iteration: nat) {
    && p < |events| && events[p].IterationStart? && iteration == AsU32(events[p].iteration)
    && forall k :: p < k < |events| ==> !events[k].IterationStart?
  }

  /** Some IterationStart is the last one, and it carries `iteration`. */
  ghost predicate StartedLast(events: seq<AgentEvent>, iteration: nat) {
    exists p: nat :: IsLastStart(events, p, iteration)
  }

  lemma {:induction false} LastIterationMeaning(known: nat, events: seq<AgentEvent>)
    ensures StartedLast(events, LastIteration(known, events))
         || (LastIteration(known, events) == known && Starts(events) == [])
  {
    if events == [] {
    } else {
      var n: nat := |events| - 1;
      if events[n].IterationStart? {
        var last := AsU32(events[n].iteration);
        assert IsLastStart(events, n, last);
        assert LastIteration(known, events) == last;
      } else {
        LastIterationMeaning(known, events[..n]);
        var last := LastIteration(known, events[..n]);
        assert LastIteration(known, events) == last && Starts(events) == Starts(events[..n]);
        if StartedLast(events[..n], last) {
          var p: nat :| IsLastStart(events[..n], p, last);
          assert IsLastStart(events, p, last);
        }
      }
    }
  }

  /** As long as counts fit into 32 bits the snapshot shows the last one as it was sent, whatever was known before. */
  lemma SmallCountsAreShown(known: Option<Snapshot>, events: seq<AgentEvent>, p: nat)
    requires p < |events| && events[p].IterationStart? && events[p].iteration < 0x1_0000_0000
    requires forall k :: p < k < |events| ==> !events[k].IterationStart?
    ensures Final(known, events).Some? && Final(known, events).value.iteration == events[p].iteration
  {
    var was := if known.Some? then known.value else Snapshot(0, None);
    LastIterationIs(was.iteration, events, p);
    U32Meaning(events[p].iteration, 0);
  }

  lemma {:induction false} LastIterationIs(known: nat, events: seq<AgentEvent>, p: nat)
    requires p < |events| && events[p].IterationStart? && IsLastStart(events, p, AsU32(events[p].iteration))
    ensures LastIteration(known, events) == AsU32(events[p].iteration)
  {
    var n := |events| - 1;
    if p < n { LastIterationIs(known, events[..n], p); }
  }

  /**
   A fresh agent's snapshot: the iteration of the last IterationStart or 0, and
   the name of the last ToolStart if there is one; no snapshot at all exactly
   when no event was relevant.
   */
  lemma FreshAgent(events: seq<AgentEvent>)
    ensures match Final(None, events)
            case None => Quiet(events)
            case Some(s) =>
              && !Quiet(events)
              && (StartedLast(events, s.iteration) || (s.iteration == 0 && Starts(events) == []))
              && (ToolUsedLast(events, s.lastTool)
                  || (s.lastTool == None && forall k :: 0 <= k < |events| ==> !events[k].ToolStart?))
  {
    LastIterationMeaning(0, events);
    LastToolMeaning(None, events);
  }

  lemma FinalEmpty(agentId: Id, known: Option<Snapshot>)
    ensures Final(known, []) == known && Emitted(agentId, KnownTool(known), []) == []
  {
  }

  class ProgressBoard {
    /** The shared map and the lifecycle broadcast. */
    var progress: map<Id, Snapshot>
    var sent: seq<Progress>

    constructor ()
      ensures progress == map[] && sent == []
    {
      progress, sent := map[], [];
    }

    /** The forwarder loop, over all the events the engine sends it. */
    method Forward(agentId: Id, events: seq<AgentEvent>)
      modifies this
      ensures Entry(progress, agentId) == Final(old(Entry(progress, agentId)), events)
      ensures sent == old(sent) + Emitted(agentId, KnownTool(old(Entry(progress, agentId))), events)
      ensures progress - {agentId} == old(progress) - {agentId}
    {
      hide Final, Emitted, LastTool;
      ghost var known := Entry(progress, agentId);
      FinalEmpty(agentId, known);
      for i := 0 to |events|
        invariant Entry(progress, agentId) == Final(known, events[..i])
        invariant sent == old(sent) + Emitted(agentId, KnownTool(known), events[..i])
        invariant progress - {agentId} == old(progress) - {agentId}
      {
        assert events[..i + 1] == events[..i] + [events[i]];
        FinalSnoc(known, events[..i], events[i]);
        EmittedSnoc(agentId, KnownTool(known), events[..i], events[i]);
        KnownToolIsLast(known, events[..i]);
        match events[i] {
          case IterationStart(iteration) =>
            var lastTool := if agentId in progress then progress[agentId].lastTool else None;
            progress := progress[agentId := Snapshot(AsU32(iteration), lastTool)];
            sent := sent + [Progress(agentId, AsU32(iteration), lastTool)];
          case ToolStart(name) =>
            var iteration := if agentId in progress then progress[agentId].iteration else 0;
            progress := progress[agentId := Snapshot(iteration, Some(name))];
          case Other =>
        }
      }
      assert events[..|events|] == events;
    }
  }
}
