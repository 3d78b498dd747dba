/**
 The ephemeral subagents of SubagentManager::spawn: a semaphore, a handle table,
 a progress map and an event stream, changed by many tasks at once.
 A step is what one task does between two points where another may run; a run is
 any interleaving of steps. Agent ids are the positions in `agents`: fresh by construction.
 */
module SubagentPool {

  /** How a subagent run ended; only the first carries a status of its own. */
  datatype Outcome = Answered(success: bool) | Failed | CancelledByUser

  datatype Phase =
    | Registered
    | Waiting
    | Running
    | Ended(outcome: Outcome)
    | Dropped(outcome: Outcome)
    | Removed(outcome: Outcome)
    | Reported(outcome: Outcome)
    | Done(outcome: Outcome)

  /** The detached task that copies engine events into the progress map. */
  datatype Forwarder = NotStarted | Live | Closed

  datatype Agent = Agent(phase: Phase, cancelled: bool, forwarder: Forwarder)

  datatype Event = Spawned(id: nat) | Completed(id: nat, success: bool) | Cancelled(id: nat, byUser: bool)

  datatype State = State(
    max: nat,
    available: nat,
    agents: seq<Agent>,
    handles: set<nat>,
    progress: set<nat>,
    events: seq<Event>)

  datatype Step =
    | InsertHandle
    | EmitSpawned(id: nat)
    | Cancel(id: nat)
    | Acquire(id: nat)
    | StartForwarder(id: nat)
    | Forward(id: nat)
    | CloseForwarder(id: nat)
    | EndRun(id: nat, outcome: Outcome)
    | DropProgress(id: nat)
    | RemoveHandle(id: nat)
    | Report(id: nat)
    | Release(id: nat)

  function Start(max: nat): State { State(max, max, [], {}, {}, []) }

  predicate CanStep(s: State, step: Step) {
    step.InsertHandle? ||
    (step.id < |s.agents| &&
     var a := s.agents[step.id];
     match step
     case EmitSpawned(_) => a.phase.Registered?
     case Cancel(i) => i in s.handles
     case Acquire(_) => a.phase.Waiting? && s.available > 0
     case StartForwarder(_) => a.phase.Running? && a.forwarder.NotStarted?
     case Forward(_) => a.forwarder.Live?
     case CloseForwarder(_) => a.forwarder.Live?
     // A run that ends by itself has waited for its forwarder; a cancelled one is dropped on the spot.
     case EndRun(_, o) => a.phase.Running? && if o.CancelledByUser? then a.cancelled else !a.forwarder.Live?
     case DropProgress(_) => a.phase.Ended?
     case RemoveHandle(_) => a.phase.Dropped?
     case Report(_) => a.phase.Removed?
     case Release(_) => a.phase.Reported?)
  }

  function Terminal(id: nat, o: Outcome): Event {
    match o
    case Answered(success) => Completed(id, success)
    case Failed => Cancelled(id, false)
    case CancelledByUser => Cancelled(id, true)
  }

  function Moved(s: State, id: nat, phase: Phase): seq<Agent>
    requires id < |s.agents|
  {
    s.agents[id := s.agents[id].(phase := phase)]
  }

  function Next(s: State, step: Step): State
    requires CanStep(s, step)
  {
    match step
    case InsertHandle =>
      s.(agents := s.agents + [Agent(Registered, false, NotStarted)], handles := s.handles + {|s.agents|})
    case EmitSpawned(i) => s.(agents := Moved(s, i, Waiting), events := s.events + [Spawned(i)])
    case Cancel(i) => s.(agents := s.agents[i := s.agents[i].(cancelled := true)], handles := s.handles - {i})
    case Acquire(i) => s.(agents := Moved(s, i, Running), available := s.available - 1)
    case StartForwarder(i) => s.(agents := s.agents[i := s.agents[i].(forwarder := Live)])
    case Forward(i) => s.(progress := s.progress + {i})
    case CloseForwarder(i) => s.(agents := s.agents[i := s.agents[i].(forwarder := Closed)])
    case EndRun(i, o) => s.(agents := Moved(s, i, Ended(o)))
    case DropProgress(i) =>
      s.(agents := Moved(s, i, Dropped(s.agents[i].phase.outcome)), progress := s.progress - {i})
    case RemoveHandle(i) =>
      s.(agents := Moved(s, i, Removed(s.agents[i].phase.outcome)), handles := s.handles - {i})
    case Report(i) =>
      var o := s.agents[i].phase.outcome;
      s.(agents := Moved(s, i, Reported(o)), events := s.events + [Terminal(i, o)])
    case Release(i) =>
      s.(agents := Moved(s, i, Done(s.agents[i].phase.outcome)), available := s.available + 1)
  }

  predicate Runs(s: State, run: seq<Step>)
    decreases |run|
  {
    run == [] || (CanStep(s, run[0]) && Runs(Next(s, run[0]), run[1..]))
  }

  function After(s: State, run: seq<Step>): State
    requires Runs(s, run)
    decreases |run|
  {
    if run == [] then s else After(Next(s, run[0]), run[1..])
  }

  // ---- What holds in every reachable state ----

  predicate Holds(p: Phase) { p.Running? || p.Ended? || p.Dropped? || p.Removed? || p.Reported? }

  predicate BeforeRemoval(p: Phase) { p.Registered? || p.Waiting? || p.Running? || p.Ended? || p.Dropped? }

  /** Permits held by the agents. */
  function Held(agents: seq<Agent>): nat {
    if agents == [] then 0
    else Held(agents[..|agents| - 1]) + if Holds(agents[|agents| - 1].phase) then 1 else 0
  }

  /** The events of one agent, in order. */
  function TraceOf(events: seq<Event>, id: nat): seq<Event> {
    if events == [] then []
    else
      var e := events[|events| - 1];
      TraceOf(events[..|events| - 1], id) + if e.id == id then [e] else []
  }

  /** Spawned first, then at most one terminal event, which tells the outcome. */
  function ExpectedTrace(id: nat, p: Phase): seq<Event> {
    match p
    case Registered => []
    case Reported(o) => [Spawned(id), Terminal(id, o)]
    case Done(o) => [Spawned(id), Terminal(id, o)]
    case _ => [Spawned(id)]
  }

  predicate UserCancelled(p: Phase) { !p.Registered? && !p.Waiting? && !p.Running? && p.outcome.CancelledByUser? }

  ghost predicate AgentInv(s: State, i: nat)
    requires i < |s.agents|
  {
    var a := s.agents[i];
    && (i in s.handles <==> !a.cancelled && BeforeRemoval(a.phase))
    && (UserCancelled(a.phase) ==> a.cancelled)
    && TraceOf(s.events, i) == ExpectedTrace(i, a.phase)
    && (a.phase.Registered? || a.phase.Waiting? ==> a.forwarder.NotStarted?)
    && (a.forwarder.Live? ==> a.phase.Running? || UserCancelled(a.phase))
    && (i in s.progress ==> a.forwarder != NotStarted && (a.phase.Running? || a.phase.Ended? || UserCancelled(a.phase)))
  }

  ghost predicate Inv(s: State) {
    && s.available + Held(s.agents) == s.max
    && (forall i :: i in s.handles || i in s.progress ==> i < |s.agents|)
    && (forall k :: 0 <= k < |s.events| ==> s.events[k].id < |s.agents|)
    && (forall i: nat :: i < |s.agents| ==> AgentInv(s, i))
  }

  lemma {:induction false} HeldAfterUpdate(agents: seq<Agent>, i: nat, a: Agent)
    requires i < |agents|
    ensures Held(agents[i := a])
         == Held(agents) - (if Holds(agents[i].phase) then 1 else 0) + (if Holds(a.phase) then 1 else 0)
  {
    var n := |agents| - 1;
    if i == n {
      assert agents[i := a][..n] == agents[..n];
    } else {
      HeldAfterUpdate(agents[..n], i, a);
      assert agents[i := a][..n] == agents[..n][i := a];
    }
  }

  lemma TraceSnoc(events: seq<Event>, e: Event, id: nat)
    ensures TraceOf(events + [e], id) == TraceOf(events, id) + if e.id == id then [e] else []
  {
    assert (events + [e])[..|events|] == events;
  }

  lemma {:induction false} NoTrace(events: seq<Event>, id: nat)
    requires forall k :: 0 <= k < |events| ==> events[k].id != id
    ensures TraceOf(events, id) == []
  {
    if events == [] {
    } else {
      NoTrace(events[..|events| - 1], id);
    }
  }

  lemma InsertKeepsInv(s: State)
    requires Inv(s)
    ensures Inv(Next(s, InsertHandle))
  {
    var t, n := Next(s, InsertHandle), |s.agents|;
    assert t.agents[..n] == s.agents;
    NoTrace(s.events, n);
    forall i: nat | i < |t.agents| ensures AgentInv(t, i) {
      assert i < n ==> AgentInv(s, i);
    }
  }

  /** A step of agent `id` leaves the others alone. */
  lemma OthersKeepInv(s: State, step: Step, i: nat)
    requires Inv(s) && CanStep(s, step) && !step.InsertHandle? && i < |s.agents| && i != step.id
    ensures AgentInv(Next(s, step), i)
  {
    assert AgentInv(s, i);
    if step.EmitSpawned? { TraceSnoc(s.events, Spawned(step.id), i); }
    if step.Report? { TraceSnoc(s.events, Terminal(step.id, s.agents[step.id].phase.outcome), i); }
  }

  lemma OwnKeepsInv(s: State, step: Step)
    requires Inv(s) && CanStep(s, step) && !step.InsertHandle?
    ensures AgentInv(Next(s, step), step.id)
  {
    assert AgentInv(s, step.id);
    if step.EmitSpawned? { TraceSnoc(s.events, Spawned(step.id), step.id); }
    if step.Report? { TraceSnoc(s.events, Terminal(step.id, s.agents[step.id].phase.outcome), step.id); }
  }

  lemma StepKeepsInv(s: State, step: Step)
    requires Inv(s) && CanStep(s, step)
    ensures Inv(Next(s, step))
  {
    if step.InsertHandle? {
      InsertKeepsInv(s);
    } else {
      var t := Next(s, step);
      HeldAfterUpdate(s.agents, step.id, t.agents[step.id]);
      assert t.agents == s.agents[step.id := t.agents[step.id]];
      forall i: nat | i < |t.agents| ensures AgentInv(t, i) {
        if i == step.id { OwnKeepsInv(s, step); } else { OthersKeepInv(s, step, i); }
      }
    }
  }

  lemma {:induction false} RunKeepsInv(s: State, run: seq<Step>)
    requires Inv(s) && Runs(s, run)
    ensures Inv(After(s, run)) && After(s, run).max == s.max
    decreases |run|
  {
    if run == [] {
    } else {
      StepKeepsInv(s, run[0]);
      RunKeepsInv(Next(s, run[0]), run[1..]);
    }
  }

  predicate Quiescent(s: State) {
    forall i :: 0 <= i < |s.agents| ==> s.agents[i].phase.Done? && !s.agents[i].forwarder.Live?
  }

  lemma {:induction false} NothingHeld(agents: seq<Agent>)
    requires forall i :: 0 <= i < |agents| ==> !Holds(agents[i].phase)
    ensures Held(agents) == 0
  {
    if agents == [] {
    } else {
      NothingHeld(agents[..|agents| - 1]);
    }
  }

  /**
   Every interleaving: permits held plus permits available is the maximum, the
   handle table holds exactly the spawned ids neither cancelled nor past their
   removal, and each id has emitted Spawned and then at most one terminal event.
   */
  lemma EveryInterleaving(max: nat, run: seq<Step>)
    requires Runs(Start(max), run)
    ensures var s := After(Start(max), run);
            && s.available + Held(s.agents) == max
            && (forall i: nat :: i in s.handles <==>
                  i < |s.agents| && !s.agents[i].cancelled && BeforeRemoval(s.agents[i].phase))
            && (forall i: nat :: i < |s.agents| ==> TraceOf(s.events, i) == ExpectedTrace(i, s.agents[i].phase))
            && (forall i: nat :: i < |s.agents| && UserCancelled(s.agents[i].phase) ==> s.agents[i].cancelled)
  {
    RunKeepsInv(Start(max), run);
    var s := After(Start(max), run);
    forall i: nat | i < |s.agents|
      ensures i in s.handles <==> !s.agents[i].cancelled && BeforeRemoval(s.agents[i].phase)
      ensures TraceOf(s.events, i) == ExpectedTrace(i, s.agents[i].phase)
      ensures UserCancelled(s.agents[i].phase) ==> s.agents[i].cancelled
    {
      assert AgentInv(s, i);
    }
  }

  /**
   When nothing is left to do, the table is empty, all permits are back and each
   id reported once; a progress entry can outlive only a run the user cancelled.
   */
  lemma AtQuiescence(max: nat, run: seq<Step>)
    requires Runs(Start(max), run) && Quiescent(After(Start(max), run))
    ensures var s := After(Start(max), run);
            && s.handles == {} && s.available == max
            && (forall i: nat :: i < |s.agents| ==>
                  TraceOf(s.events, i) == [Spawned(i), Terminal(i, s.agents[i].phase.outcome)])
            && (forall i: nat :: i in s.progress ==> i < |s.agents| && s.agents[i].phase.outcome.CancelledByUser?)
  {
    RunKeepsInv(Start(max), run);
    var s := After(Start(max), run);
    NothingHeld(s.agents);
    forall i: nat | i < |s.agents|
      ensures i !in s.handles
      ensures TraceOf(s.events, i) == [Spawned(i), Terminal(i, s.agents[i].phase.outcome)]
      ensures i in s.progress ==> s.agents[i].phase.outcome.CancelledByUser?
    {
      assert AgentInv(s, i) && s.agents[i].phase.Done?;
    }
    assert s.handles == {};
  }

  // ---- What is reported ----

  predicate EndedWith(s: State, i: nat, o: Outcome) {
    i < |s.agents| && !s.agents[i].phase.Registered? && !s.agents[i].phase.Waiting? && !s.agents[i].phase.Running?
    && s.agents[i].phase.outcome == o
  }

  lemma StepEnds(s: State, step: Step, i: nat, o: Outcome)
    requires CanStep(s, step)
    ensures EndedWith(Next(s, step), i, o) <==> EndedWith(s, i, o) || step == EndRun(i, o)
  {
  }

  /** An agent is past its run with an outcome exactly when its run ended so. */
  lemma {:induction false} EndedIff(s: State, run: seq<Step>, i: nat, o: Outcome)
    requires Runs(s, run)
    ensures EndedWith(After(s, run), i, o) <==> EndedWith(s, i, o) || EndRun(i, o) in run
    decreases |run|
  {
    if run == [] {
    } else {
      assert run == [run[0]] + run[1..];
      StepEnds(s, run[0], i, o);
      EndedIff(Next(s, run[0]), run[1..], i, o);
    }
  }

  lemma {:induction false} InTrace(events: seq<Event>, e: Event)
    ensures e in TraceOf(events, e.id) <==> e in events
  {
    if events == [] {
    } else {
      var n := |events| - 1;
      assert events == events[..n] + [events[n]];
      InTrace(events[..n], e);
    }
  }

  /**
   At rest every spawned agent has reported how its run ended: Completed with
   the success its run had, Cancelled by the user exactly when the user's cancel
   ended it, and Cancelled otherwise exactly when it failed.
   */
  lemma ReportsTellTheOutcome(max: nat, run: seq<Step>, i: nat)
    requires Runs(Start(max), run) && Quiescent(After(Start(max), run))
    ensures var events := After(Start(max), run).events;
            && (Completed(i, true) in events <==> EndRun(i, Answered(true)) in run)
            && (Completed(i, false) in events <==> EndRun(i, Answered(false)) in run)
            && (Cancelled(i, true) in events <==> EndRun(i, CancelledByUser) in run)
            && (Cancelled(i, false) in events <==> EndRun(i, Failed) in run)
  {
    var s := After(Start(max), run);
    RunKeepsInv(Start(max), run);
    forall o ensures EndedWith(s, i, o) <==> EndRun(i, o) in run { EndedIff(Start(max), run, i, o); }
    InTrace(s.events, Completed(i, true));
    InTrace(s.events, Completed(i, false));
    InTrace(s.events, Cancelled(i, true));
    InTrace(s.events, Cancelled(i, false));
    if i < |s.agents| {
      AtQuiescence(max, run);
      assert s.agents[i].phase.Done?;
    } else {
      NoTrace(s.events, i);
    }
  }

  // ---- Exactly which progress entries are left ----

  /** From position n on, the entry of the agent is not dropped. */
  ghost predicate NoDrop(run: seq<Step>, n: nat, i: nat) {
    forall m :: n <= m < |run| ==> run[m] != DropProgress(i)
  }

  ghost predicate LastForwardAt(run: seq<Step>, n: nat, i: nat) {
    n < |run| && run[n] == Forward(i) && NoDrop(run, n, i)
  }

  /** Some event of the agent was forwarded, and its entry was not dropped after that. */
  ghost predicate ForwardedLast(run: seq<Step>, i: nat) { exists n :: LastForwardAt(run, n, i) }

  lemma NoDropCons(step: Step, rest: seq<Step>, n: nat, i: nat)
    ensures NoDrop([step] + rest, n + 1, i) <==> NoDrop(rest, n, i)
    ensures NoDrop([step] + rest, 0, i) <==> step != DropProgress(i) && NoDrop(rest, 0, i)
    ensures LastForwardAt([step] + rest, n + 1, i) <==> LastForwardAt(rest, n, i)
  {
    var run := [step] + rest;
    assert run[0] == step && forall m :: 0 <= m < |rest| ==> rest[m] == run[m + 1];
    assert forall m :: 0 < m < |run| ==> run[m] == rest[m - 1];
  }

  lemma ForwardedLastCons(step: Step, rest: seq<Step>, i: nat)
    ensures ForwardedLast([step] + rest, i) <==> ForwardedLast(rest, i) || (step == Forward(i) && NoDrop(rest, 0, i))
  {
    var run := [step] + rest;
    NoDropCons(step, rest, 0, i);
    if n: nat :| LastForwardAt(run, n, i) {
      if n > 0 {
        NoDropCons(step, rest, n - 1, i);
        assert LastForwardAt(rest, n - 1, i);
      }
    }
    if n: nat :| LastForwardAt(rest, n, i) {
      NoDropCons(step, rest, n, i);
      assert LastForwardAt(run, n + 1, i);
    }
    if step == Forward(i) && NoDrop(rest, 0, i) {
      assert LastForwardAt(run, 0, i);
    }
  }

  lemma StepOnProgress(s: State, step: Step, i: nat)
    requires CanStep(s, step)
    ensures i in Next(s, step).progress <==> step == Forward(i) || (i in s.progress && step != DropProgress(i))
  {
  }

  /** An entry is there exactly when it was forwarded after its last drop, or was there and never dropped. */
  lemma {:induction false} ProgressFrom(s: State, run: seq<Step>, i: nat)
    requires Runs(s, run)
    ensures i in After(s, run).progress <==> ForwardedLast(run, i) || (i in s.progress && NoDrop(run, 0, i))
    decreases |run|
  {
    if run == [] {
    } else {
      assert run == [run[0]] + run[1..];
      NoDropCons(run[0], run[1..], 0, i);
      ForwardedLastCons(run[0], run[1..], i);
      StepOnProgress(s, run[0], i);
      ProgressFrom(Next(s, run[0]), run[1..], i);
    }
  }

  /** In every interleaving an agent has a progress entry exactly when one was forwarded and not dropped since. */
  lemma ProgressIff(max: nat, run: seq<Step>, i: nat)
    requires Runs(Start(max), run)
    ensures i in After(Start(max), run).progress <==> ForwardedLast(run, i)
  {
    ProgressFrom(Start(max), run, i);
  }

  predicate PastDrop(s: State, i: nat) {
    i < |s.agents| && !BeforeDrop(s.agents[i].phase)
  }

  predicate BeforeDrop(p: Phase) { p.Registered? || p.Waiting? || p.Running? || p.Ended? }

  lemma StepOnDrop(s: State, step: Step, i: nat)
    requires CanStep(s, step)
    ensures PastDrop(Next(s, step), i) <==> PastDrop(s, i) || step == DropProgress(i)
    ensures step == DropProgress(i) ==> !PastDrop(s, i)
  {
  }

  /** The entry is dropped once, on the way past that phase. */
  lemma {:induction false} DropsOnce(s: State, run: seq<Step>, i: nat)
    requires Runs(s, run)
    ensures PastDrop(After(s, run), i) <==> PastDrop(s, i) || !NoDrop(run, 0, i)
    ensures PastDrop(s, i) ==> NoDrop(run, 0, i)
    ensures forall m :: 0 <= m < |run| && run[m] == DropProgress(i) ==> NoDrop(run, m + 1, i)
    decreases |run|
  {
    if run == [] {
    } else {
      var rest := run[1..];
      assert run == [run[0]] + rest;
      NoDropCons(run[0], rest, 0, i);
      StepOnDrop(s, run[0], i);
      DropsOnce(Next(s, run[0]), rest, i);
      forall m | 0 < m < |run| && run[m] == DropProgress(i) ensures NoDrop(run, m + 1, i) {
        assert rest[m - 1] == run[m];
        NoDropCons(run[0], rest, m, i);
      }
    }
  }

  /** A forward that comes after the drop of the same agent. */
  ghost predicate ForwardedLate(run: seq<Step>, i: nat) {
    exists m, n :: 0 <= m < n < |run| && run[m] == DropProgress(i) && run[n] == Forward(i)
  }

  /** At rest an entry is left exactly for the agents whose forwarder wrote after the drop. */
  lemma LeftoverIff(max: nat, run: seq<Step>, i: nat)
    requires Runs(Start(max), run) && Quiescent(After(Start(max), run))
    ensures i in After(Start(max), run).progress <==> ForwardedLate(run, i)
  {
    ProgressIff(max, run, i);
    DropsOnce(Start(max), run, i);
    if n: nat :| LastForwardAt(run, n, i) {
      AtQuiescence(max, run);
      assert After(Start(max), run).agents[i].phase.Done?;
      assert !NoDrop(run, 0, i);
      var m :| 0 <= m < |run| && run[m] == DropProgress(i);
      assert run[n] == Forward(i) && m < n;
    }
    if m, n :| 0 <= m < n < |run| && run[m] == DropProgress(i) && run[n] == Forward(i) {
      assert NoDrop(run, m + 1, i) && LastForwardAt(run, n, i);
    }
  }

  /** Such a leftover entry does occur: the forwarder writes after the entry was dropped. */
  lemma LeftoverProgress()
    ensures exists run :: Runs(Start(1), run) && Quiescent(After(Start(1), run)) && After(Start(1), run).progress == {0}
  {
    var cancelled := CancelledMidRun();
    var rest := [EndRun(0, CancelledByUser), DropProgress(0), RemoveHandle(0), Report(0), Release(0)];
    CleanedUp();
    WrittenLate();
    Join(Start(1), cancelled, rest);
    Join(Start(1), cancelled + rest, [Forward(0), CloseForwarder(0)]);
  }

  /** Every outcome happens: a lone agent runs through to rest with it. */
  lemma EveryOutcomeHappens(o: Outcome)
    ensures exists run :: Runs(Start(1), run) && Quiescent(After(Start(1), run)) && EndRun(0, o) in run
  {
    var start := [InsertHandle, EmitSpawned(0), Acquire(0)];
    var rest := [EndRun(0, o), DropProgress(0), RemoveHandle(0), Report(0), Release(0)];
    LoneStart();
    if o.CancelledByUser? {
      assert Next(LoneRun(false), Cancel(0)) == LoneRun(true);
      LoneEnd(o, true);
      Unfold(LoneRun(false), Cancel(0), rest);
      Join(Start(1), start, [Cancel(0)] + rest);
      assert (start + ([Cancel(0)] + rest))[4] == EndRun(0, o);
    } else {
      LoneEnd(o, false);
      Join(Start(1), start, rest);
      assert (start + rest)[3] == EndRun(0, o);
    }
  }

  function LoneRun(cancelled: bool): State {
    State(1, 0, [Agent(Running, cancelled, NotStarted)], if cancelled then {} else {0}, {}, [Spawned(0)])
  }

  lemma LoneStart()
    ensures var start := [InsertHandle, EmitSpawned(0), Acquire(0)];
            Runs(Start(1), start) && After(Start(1), start) == LoneRun(false)
  {
    var s1 := State(1, 1, [Agent(Registered, false, NotStarted)], {0}, {}, []);
    var s2 := State(1, 1, [Agent(Waiting, false, NotStarted)], {0}, {}, [Spawned(0)]);
    assert Next(Start(1), InsertHandle) == s1;
    assert Next(s1, EmitSpawned(0)) == s2 && Next(s2, Acquire(0)) == LoneRun(false);
    Unfold(s2, Acquire(0), []);
    Unfold(s1, EmitSpawned(0), [Acquire(0)]);
    Unfold(Start(1), InsertHandle, [EmitSpawned(0), Acquire(0)]);
  }

  lemma LoneEnd(o: Outcome, cancelled: bool)
    requires cancelled <==> o.CancelledByUser?
    ensures var rest := [EndRun(0, o), DropProgress(0), RemoveHandle(0), Report(0), Release(0)];
            Runs(LoneRun(cancelled), rest) && Quiescent(After(LoneRun(cancelled), rest))
  {
    var s0 := LoneRun(cancelled);
    var s1 := s0.(agents := [Agent(Ended(o), cancelled, NotStarted)]);
    var s2 := s0.(agents := [Agent(Dropped(o), cancelled, NotStarted)]);
    var s3 := s0.(agents := [Agent(Removed(o), cancelled, NotStarted)], handles := {});
    var s4 := s3.(agents := [Agent(Reported(o), cancelled, NotStarted)], events := s0.events + [Terminal(0, o)]);
    var s5 := s4.(agents := [Agent(Done(o), cancelled, NotStarted)], available := 1);
    assert Next(s0, EndRun(0, o)) == s1 && Next(s1, DropProgress(0)) == s2;
    assert Next(s2, RemoveHandle(0)) == s3 && Next(s3, Report(0)) == s4 && Next(s4, Release(0)) == s5;
    Unfold(s4, Release(0), []);
    Unfold(s3, Report(0), [Release(0)]);
    Unfold(s2, RemoveHandle(0), [Report(0), Release(0)]);
    Unfold(s1, DropProgress(0), [RemoveHandle(0), Report(0), Release(0)]);
    Unfold(s0, EndRun(0, o), [DropProgress(0), RemoveHandle(0), Report(0), Release(0)]);
  }

  function MidRun(): State { State(1, 0, [Agent(Running, true, Live)], {}, {}, [Spawned(0)]) }

  function CleanState(): State {
    State(1, 1, [Agent(Done(CancelledByUser), true, Live)], {}, {}, [Spawned(0), Cancelled(0, true)])
  }

  lemma CancelledMidRun() returns (run: seq<Step>)
    ensures Runs(Start(1), run) && After(Start(1), run) == MidRun()
  {
    run := [InsertHandle, EmitSpawned(0), Acquire(0), StartForwarder(0), Cancel(0)];
    var s1 := State(1, 1, [Agent(Registered, false, NotStarted)], {0}, {}, []);
    var s2 := State(1, 1, [Agent(Waiting, false, NotStarted)], {0}, {}, [Spawned(0)]);
    var s3 := State(1, 0, [Agent(Running, false, NotStarted)], {0}, {}, [Spawned(0)]);
    var s4 := State(1, 0, [Agent(Running, false, Live)], {0}, {}, [Spawned(0)]);
    assert Next(Start(1), InsertHandle) == s1;
    assert Next(s1, EmitSpawned(0)) == s2 && Next(s2, Acquire(0)) == s3;
    assert Next(s3, StartForwarder(0)) == s4 && Next(s4, Cancel(0)) == MidRun();
    Unfold(s4, Cancel(0), []);
    Unfold(s3, StartForwarder(0), [Cancel(0)]);
    Unfold(s2, Acquire(0), [StartForwarder(0), Cancel(0)]);
    Unfold(s1, EmitSpawned(0), [Acquire(0), StartForwarder(0), Cancel(0)]);
    Unfold(Start(1), InsertHandle, [EmitSpawned(0), Acquire(0), StartForwarder(0), Cancel(0)]);
  }

  lemma CleanedUp()
    ensures var rest := [EndRun(0, CancelledByUser), DropProgress(0), RemoveHandle(0), Report(0), Release(0)];
            Runs(MidRun(), rest) && After(MidRun(), rest) == CleanState()
  {
    var o, sp := CancelledByUser, [Spawned(0)];
    var s1 := State(1, 0, [Agent(Ended(o), true, Live)], {}, {}, sp);
    var s2 := State(1, 0, [Agent(Dropped(o), true, Live)], {}, {}, sp);
    var s3 := State(1, 0, [Agent(Removed(o), true, Live)], {}, {}, sp);
    var s4 := State(1, 0, [Agent(Reported(o), true, Live)], {}, {}, sp + [Cancelled(0, true)]);
    assert Next(MidRun(), EndRun(0, o)) == s1 && Next(s1, DropProgress(0)) == s2;
    assert Next(s2, RemoveHandle(0)) == s3 && Next(s3, Report(0)) == s4 && Next(s4, Release(0)) == CleanState();
    Unfold(s4, Release(0), []);
    Unfold(s3, Report(0), [Release(0)]);
    Unfold(s2, RemoveHandle(0), [Report(0), Release(0)]);
    Unfold(s1, DropProgress(0), [RemoveHandle(0), Report(0), Release(0)]);
    Unfold(MidRun(), EndRun(0, o), [DropProgress(0), RemoveHandle(0), Report(0), Release(0)]);
  }

  lemma WrittenLate()
    ensures var late := [Forward(0), CloseForwarder(0)];
            Runs(CleanState(), late) && Quiescent(After(CleanState(), late))
                && After(CleanState(), late).progress == {0}
  {
    var s1 := CleanState().(progress := {0});
    assert Next(CleanState(), Forward(0)) == s1;
    var s2 := Next(s1, CloseForwarder(0));
    assert s2.agents == [Agent(Done(CancelledByUser), true, Closed)];
    Unfold(s1, CloseForwarder(0), []);
    Unfold(CleanState(), Forward(0), [CloseForwarder(0)]);
  }

  lemma {:induction false} Join(s: State, run: seq<Step>, more: seq<Step>)
    requires Runs(s, run) && Runs(After(s, run), more)
    ensures Runs(s, run + more) && After(s, run + more) == After(After(s, run), more)
    decreases |run|
  {
    if run == [] {
      assert run + more == more;
    } else {
      Join(Next(s, run[0]), run[1..], more);
      assert (run + more)[1..] == run[1..] + more;
    }
  }

  lemma Unfold(s: State, step: Step, rest: seq<Step>)
    requires CanStep(s, step) && Runs(Next(s, step), rest)
    ensures Runs(s, [step] + rest) && After(s, [step] + rest) == After(Next(s, step), rest)
  {
    assert ([step] + rest)[1..] == rest;
  }

  // ---- Progress ----

  function PhaseRank(p: Phase): nat {
    match p
    case Registered => 7
    case Waiting => 6
    case Running => 5
    case Ended(_) => 4
    case Dropped(_) => 3
    case Removed(_) => 2
    case Reported(_) => 1
    case Done(_) => 0
  }

  function Rank(a: Agent): nat {
    PhaseRank(a.phase) + match a.forwarder case NotStarted => 2 case Live => 1 case Closed => 0
  }

  function Work(agents: seq<Agent>): nat {
    if agents == [] then 0 else Work(agents[..|agents| - 1]) + Rank(agents[|agents| - 1])
  }

  lemma {:induction false} WorkAfterUpdate(agents: seq<Agent>, i: nat, a: Agent)
    requires i < |agents|
    ensures Work(agents[i := a]) == Work(agents) - Rank(agents[i]) + Rank(a)
  {
    var n := |agents| - 1;
    if i == n {
      assert agents[i := a][..n] == agents[..n];
    } else {
      WorkAfterUpdate(agents[..n], i, a);
      assert agents[i := a][..n] == agents[..n][i := a];
    }
  }

  /** The steps that spawned subagents take themselves, apart from copying one more engine event. */
  predicate Internal(step: Step) { !step.InsertHandle? && !step.Cancel? && !step.Forward? }

  lemma InternalStepsUseUpWork(s: State, step: Step)
    requires CanStep(s, step) && Internal(step)
    ensures Work(Next(s, step).agents) < Work(s.agents)
  {
    var t := Next(s, step);
    WorkAfterUpdate(s.agents, step.id, t.agents[step.id]);
    assert t.agents == s.agents[step.id := t.agents[step.id]];
  }

  lemma {:induction false} SomeoneHolds(agents: seq<Agent>) returns (i: nat)
    requires Held(agents) > 0
    ensures i < |agents| && Holds(agents[i].phase)
  {
    var n := |agents| - 1;
    if Holds(agents[n].phase) { i := n; } else { i := SomeoneHolds(agents[..n]); }
  }

  /** An agent with a permit, or with a live forwarder, can always go on. */
  lemma BusyAgentGoesOn(s: State, i: nat) returns (step: Step)
    requires i < |s.agents| && (Holds(s.agents[i].phase) || s.agents[i].forwarder.Live?)
    ensures CanStep(s, step) && Internal(step)
  {
    var a := s.agents[i];
    step :=
      if a.forwarder.Live? then CloseForwarder(i)
      else
        match a.phase
        case Ended(_) => DropProgress(i)
        case Dropped(_) => RemoveHandle(i)
        case Removed(_) => Report(i)
        case Reported(_) => Release(i)
        case _ => EndRun(i, Failed);
  }

  lemma SomeoneGoesOn(s: State) returns (step: Step)
    requires Inv(s) && s.max > 0 && !Quiescent(s)
    ensures CanStep(s, step) && Internal(step)
  {
    var i :| 0 <= i < |s.agents| && !(s.agents[i].phase.Done? && !s.agents[i].forwarder.Live?);
    var a := s.agents[i];
    if Holds(a.phase) || a.forwarder.Live? {
      step := BusyAgentGoesOn(s, i);
    } else if a.phase.Registered? {
      step := EmitSpawned(i);
    } else if s.available > 0 {
      step := Acquire(i);
    } else {
      var j := SomeoneHolds(s.agents);
      step := BusyAgentGoesOn(s, j);
    }
  }

  ghost predicate CanGoOn(s: State) { exists step :: Internal(step) && CanStep(s, step) }

  /** No interleaving gets stuck exactly when at least one concurrent subagent is allowed. */
  lemma NeverStuckIff(max: nat)
    ensures (forall run :: Runs(Start(max), run) && !Quiescent(After(Start(max), run)) ==>
              CanGoOn(After(Start(max), run)))
        <==> max > 0
  {
    if max > 0 {
      forall run | Runs(Start(max), run) && !Quiescent(After(Start(max), run)) ensures CanGoOn(After(Start(max), run)) {
        RunKeepsInv(Start(max), run);
        var step := SomeoneGoesOn(After(Start(max), run));
      }
    } else {
      var s1 := State(0, 0, [Agent(Registered, false, NotStarted)], {0}, {}, []);
      var s2 := State(0, 0, [Agent(Waiting, false, NotStarted)], {0}, {}, [Spawned(0)]);
      assert Next(Start(0), InsertHandle) == s1 && Next(s1, EmitSpawned(0)) == s2;
      Unfold(s1, EmitSpawned(0), []);
      Unfold(Start(0), InsertHandle, [EmitSpawned(0)]);
      assert !s2.agents[0].phase.Done?;
      forall step | CanStep(s2, step) ensures !Internal(step) {
        if !step.InsertHandle? { assert s2.agents[step.id] == Agent(Waiting, false, NotStarted); }
      }
    }
  }

  class SubagentManager {
    const max: nat
    var available: nat
    var agents: seq<Agent>
    var handles: set<nat>
    var progress: set<nat>
    var events: seq<Event>

    constructor (max: nat)
      ensures View() == Start(max)
    {
      this.max, available := max, max;
      agents, handles, progress, events := [], {}, {}, [];
    }

    function View(): State
      reads this
    {
      State(max, available, agents, handles, progress, events)
    }

    /** The part of spawn under the handle lock. */
    method InsertNewHandle() returns (id: nat)
      modifies this
      ensures View() == Next(old(View()), InsertHandle) && id == |old(agents)|
    {
      id := |agents|;
      agents := agents + [Agent(Registered, false, NotStarted)];
      handles := handles + {id};
    }

    /** Takes the handle out of the table and fires its token; an unknown id is an error. */
    method CancelSubagent(id: nat) returns (ok: bool)
      requires id in handles ==> id < |agents|
      modifies this
      ensures ok <==> id in old(handles)
      ensures View() == if ok then Next(old(View()), Cancel(id)) else old(View())
    {
      ok := id in handles;
      if ok {
        handles := handles - {id};
        agents := agents[id := agents[id].(cancelled := true)];
      }
    }

    method SetPhase(id: nat, phase: Phase)
      requires id < |agents|
      modifies this`agents
      ensures agents == old(agents)[id := old(agents)[id].(phase := phase)]
    {
      agents := agents[id := agents[id].(phase := phase)];
    }

    method SetForwarder(id: nat, forwarder: Forwarder)
      requires id < |agents|
      modifies this`agents
      ensures agents == old(agents)[id := old(agents)[id].(forwarder := forwarder)]
    {
      agents := agents[id := agents[id].(forwarder := forwarder)];
    }

    /** One step of a spawned task or of its forwarder. */
    method Advance(step: Step)
      requires CanStep(View(), step) && !step.InsertHandle? && !step.Cancel?
      modifies this
      ensures View() == Next(old(View()), step)
    {
      var i := step.id;
      match step {
        case EmitSpawned(_) =>
          events := events + [Spawned(i)];
          SetPhase(i, Waiting);
        case Acquire(_) =>
          available := available - 1;
          SetPhase(i, Running);
        case StartForwarder(_) => SetForwarder(i, Live);
        case Forward(_) => progress := progress + {i};
        case CloseForwarder(_) => SetForwarder(i, Closed);
        case EndRun(_, outcome) => SetPhase(i, Ended(outcome));
        case DropProgress(_) =>
          progress := progress - {i};
          SetPhase(i, Dropped(agents[i].phase.outcome));
        case RemoveHandle(_) =>
          handles := handles - {i};
          SetPhase(i, Removed(agents[i].phase.outcome));
        case Report(_) =>
          events := events + [Terminal(i, agents[i].phase.outcome)];
          SetPhase(i, Reported(agents[i].phase.outcome));
        case Release(_) =>
          available := available + 1;
          SetPhase(i, Done(agents[i].phase.outcome));
      }
    }

    /** With no further requests everything comes to rest, in whatever order the steps are scheduled. */
    method Settle()
      requires Inv(View()) && max > 0
      modifies this
      ensures Inv(View()) && Quiescent(View()) && available == max && handles == {}
      ensures |agents| == |old(agents)|
    {
      while !Quiescent(View())
        invariant Inv(View()) && |agents| == |old(agents)|
        decreases Work(agents)
      {
        ghost var enabled := SomeoneGoesOn(View());
        var step: Step :| CanStep(View(), step) && Internal(step);
        StepKeepsInv(View(), step);
        InternalStepsUseUpWork(View(), step);
        Advance(step);
      }
      NothingHeld(agents);
      forall i: nat | i < |agents| ensures i !in handles {
        assert AgentInv(View(), i);
      }
      assert handles == {};
    }
  }
}
