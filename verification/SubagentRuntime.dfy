/**
 The persistent subagent runtime: spawn, resume and kill calls over shared
 status rows, a registry of cancel tokens and a lifecycle event stream.
 Each call is a program; a step is one of its statements up to the next await,
 and a repository call may fail. A run of the machine is any interleaving.
 The token of a run is the run's position in `runs`.
 */
module SubagentRuntime {
  import opened Basics
  import opened PartialSummary

  datatype Status = Running | Idle | StoppedTurn | Failed | Killed | Completed

  predicate Terminal(st: Status) { st.Failed? || st.Killed? || st.Completed? }

  predicate Resumable(st: Status) { st.Idle? || st.StoppedTurn? }

  /** A row of subagent_instances. */
  datatype Row = Row(status: Status, summary: Option<string>)

  datatype LoopResult = LoopError | Capped(content: string) | Answered

  /** Where a spawn or resume call is. A result of Some(status) is Ok; None is an error. */
  datatype Pc =
    | InsertSession
    | InsertRow
    | GetRow
    | ResetTurns
    | LoadMessages
    | ReadStatus(target: Status)
    | WriteStatus(target: Status)
    | Register
    | EmitSpawned
    | Looping
    | SetSummary(content: string)
    | Unregister(result: Option<Status>)
    | EmitResult(result: Option<Status>)
    | Returned(result: Option<Status>)
    | Abandoned

  /** One spawn or resume call; `capped` and `refused` remember how its finalization went. */
  datatype Run = Run(agent: Id, resumed: bool, pc: Pc, iterations: nat, capped: bool, refused: bool)

  datatype KillPc = KillGet | KillCancel(seen: Status) | KillRead | KillWrite | KillReturned(status: Option<Status>)

  /** One kill call and the run whose token it fired. */
  datatype Kill = Kill(agent: Id, pc: KillPc, hit: Option<nat>)

  datatype Actor = ByRun(run: nat) | ByKill(kill: nat)

  /** A status write and the whole row it left. */
  datatype Write = Write(actor: Actor, agent: Id, row: Row)

  datatype Event =
    | EvSpawned(run: nat)
    | EvProgress(run: nat, iteration: nat)
    | EvCompleted(run: nat, success: bool)
    | EvCancelled(run: nat)

  datatype State = State(
    white: Whitespace,
    rows: map<Id, Row>,
    registry: map<Id, nat>,
    fired: set<nat>,
    lost: set<nat>,
    runs: seq<Run>,
    kills: seq<Kill>,
    events: seq<Event>,
    writes: seq<Write>)

  datatype Step =
    | BeginSpawn(agent: Id)
    | BeginResume(agent: Id)
    | BeginKill(agent: Id)
    | Heartbeat(r: nat)
    | EndLoop(r: nat, loopResult: LoopResult)
    | RunStep(r: nat, up: bool)
    | KillStep(k: nat, up: bool)

  ghost function Start(white: Whitespace): State {
    State(white, map[], map[], {}, {}, [], [], [], [])
  }

  // ---- Steps ----

  ghost predicate CanStep(s: State, step: Step) {
    match step
    case BeginSpawn(_) => true
    case BeginResume(_) => true
    case BeginKill(_) => true
    case Heartbeat(r) => r < |s.runs| && s.runs[r].pc.Looping?
    case EndLoop(r, _) => r < |s.runs| && s.runs[r].pc.Looping?
    case RunStep(r, _) =>
      r < |s.runs| && !s.runs[r].pc.Looping? && !s.runs[r].pc.Returned? && !s.runs[r].pc.Abandoned?
    case KillStep(k, _) => k < |s.kills| && !s.kills[k].pc.KillReturned?
  }

  /** update_status gave up: the setup of a resume returns, a finalization reports an error. */
  function Refused(run: Run, target: Status): Run {
    if target.Running? then run.(pc := Abandoned) else run.(pc := Unregister(None), refused := true)
  }

  function AfterWrite(target: Status): Pc {
    match target
    case Running => LoadMessages
    case Idle => Unregister(Some(Idle))
    case _ => Unregister(None)
  }

  predicate MayWrite(s: State, agent: Id) { agent in s.rows && !Terminal(s.rows[agent].status) }

  /** The call itself after its next statement. */
  function NextRun(s: State, run: Run, up: bool): Run {
    var a := run.agent;
    match run.pc
    case InsertSession => run.(pc := if up then InsertRow else Abandoned)
    case InsertRow => run.(pc := if up && a !in s.rows then Register else Abandoned)
    case GetRow => run.(pc := if up && a in s.rows && Resumable(s.rows[a].status) then ResetTurns else Abandoned)
    case ResetTurns => run.(pc := if up then ReadStatus(Running) else Abandoned)
    case ReadStatus(target) => if up && MayWrite(s, a) then run.(pc := WriteStatus(target)) else Refused(run, target)
    case WriteStatus(target) => if up then run.(pc := AfterWrite(target)) else Refused(run, target)
    case LoadMessages => run.(pc := if up then Register else Abandoned)
    case Register => run.(pc := if run.resumed then Looping else EmitSpawned)
    case EmitSpawned => run.(pc := Looping)
    case SetSummary(_) => if up then run.(pc := ReadStatus(StoppedTurn)) else Refused(run, StoppedTurn)
    case Unregister(result) => run.(pc := EmitResult(result))
    case EmitResult(result) => run.(pc := Returned(result))
    case _ => run
  }

  /** The UPDATE of update_status. */
  function SetStatus(s: State, actor: Actor, agent: Id, status: Status): State {
    if agent !in s.rows then s
    else
      var row := s.rows[agent].(status := status);
      s.(rows := s.rows[agent := row], writes := s.writes + [Write(actor, agent, row)])
  }

  /** The UPDATE of set_partial_summary. */
  function SummarySet(s: State, agent: Id, content: string): State {
    if agent !in s.rows then s
    else s.(rows := s.rows[agent := s.rows[agent].(summary := Some(DerivePartialSummary(content, s.white)))])
  }

  /** The token an insert or remove at this key throws out. */
  function Evicted(s: State, agent: Id): set<nat> {
    if agent in s.registry then {s.registry[agent]} else {}
  }

  function ResultEvent(r: nat, result: Option<Status>): Event {
    match result
    case Some(status) => EvCompleted(r, status == Idle)
    case None => EvCancelled(r)
  }

  /** The shared state after the next statement of a call. */
  function Effect(s: State, r: nat, run: Run, up: bool): State {
    var a := run.agent;
    match run.pc
    case InsertRow => if up && a !in s.rows then s.(rows := s.rows[a := Row(Running, None)]) else s
    case WriteStatus(target) => if up then SetStatus(s, ByRun(r), a, target) else s
    case SetSummary(content) => if up then SummarySet(s, a, content) else s
    case Register => s.(registry := s.registry[a := r], lost := s.lost + Evicted(s, a))
    case Unregister(_) => s.(registry := s.registry - {a}, lost := s.lost + (Evicted(s, a) - {r}))
    case EmitSpawned => s.(events := s.events + [EvSpawned(r)])
    case EmitResult(result) => s.(events := s.events + [ResultEvent(r, result)])
    case _ => s
  }

  function RunNext(s: State, r: nat, up: bool): State
    requires r < |s.runs|
  {
    var run := s.runs[r];
    Effect(s, r, run, up).(runs := s.runs[r := NextRun(s, run, up)])
  }

  function EndedLoop(run: Run, loopResult: LoopResult): Run {
    match loopResult
    case LoopError => run.(pc := Unregister(None))
    case Capped(content) => run.(pc := SetSummary(content), capped := true)
    case Answered => run.(pc := ReadStatus(Idle))
  }

  function KillNext(s: State, k: nat, up: bool): State
    requires k < |s.kills|
  {
    var kill := s.kills[k];
    var a := kill.agent;
    match kill.pc
    case KillGet =>
      var pc := if up && a in s.rows then KillCancel(s.rows[a].status) else KillReturned(None);
      s.(kills := s.kills[k := kill.(pc := pc)])
    case KillCancel(seen) =>
      var pc := if Terminal(seen) then KillReturned(Some(seen)) else KillRead;
      if a in s.registry then
        s.(registry := s.registry - {a}, fired := s.fired + Evicted(s, a),
           kills := s.kills[k := kill.(pc := pc, hit := Some(s.registry[a]))])
      else s.(kills := s.kills[k := kill.(pc := pc)])
    case KillRead =>
      var pc := if up && MayWrite(s, a) then KillWrite else KillReturned(None);
      s.(kills := s.kills[k := kill.(pc := pc)])
    case KillWrite =>
      var t := if up then SetStatus(s, ByKill(k), a, Killed) else s;
      t.(kills := t.kills[k := kill.(pc := KillReturned(if up then Some(Killed) else None))])
    case KillReturned(_) => s
  }

  ghost function Next(s: State, step: Step): State
    requires CanStep(s, step)
  {
    match step
    case BeginSpawn(a) => s.(runs := s.runs + [Run(a, false, InsertSession, 0, false, false)])
    case BeginResume(a) => s.(runs := s.runs + [Run(a, true, GetRow, 0, false, false)])
    case BeginKill(a) => s.(kills := s.kills + [Kill(a, KillGet, None)])
    case Heartbeat(r) =>
      var n := s.runs[r].iterations + 1;
      s.(runs := s.runs[r := s.runs[r].(iterations := n)], events := s.events + [EvProgress(r, n)])
    case EndLoop(r, loopResult) => s.(runs := s.runs[r := EndedLoop(s.runs[r], loopResult)])
    case RunStep(r, up) => RunNext(s, r, up)
    case KillStep(k, up) => KillNext(s, k, up)
  }

  ghost predicate Runs(s: State, run: seq<Step>)
    decreases |run|
  {
    run == [] || (CanStep(s, run[0]) && Runs(Next(s, run[0]), run[1..]))
  }

  ghost function After(s: State, run: seq<Step>): State
    requires Runs(s, run)
    decreases |run|
  {
    if run == [] then s else After(Next(s, run[0]), run[1..])
  }

  // ---- Cancel tokens ----

  predicate Settles(pc: Pc) {
    (pc.ReadStatus? || pc.WriteStatus?) && !pc.target.Running?
  }

  /** From the registration of the token up to its removal. */
  predicate InFlight(pc: Pc) {
    pc.EmitSpawned? || pc.Looping? || pc.SetSummary? || Settles(pc) || pc.Unregister?
  }

  predicate Registered(s: State, r: nat)
    requires r < |s.runs|
  {
    s.runs[r].agent in s.registry && s.registry[s.runs[r].agent] == r
  }

  predicate WasRegistered(pc: Pc) { InFlight(pc) || pc.EmitResult? || pc.Returned? }

  /** A token is in the registry exactly while its run is in flight, unfired and not thrown out by another run. */
  ghost predicate TokenInv(s: State, r: nat)
    requires r < |s.runs|
  {
    && (Registered(s, r) <==> InFlight(s.runs[r].pc) && r !in s.fired && r !in s.lost)
    && (r in s.fired || r in s.lost ==> WasRegistered(s.runs[r].pc))
  }

  ghost predicate RegistryInv(s: State) {
    && (forall a :: a in s.registry ==> s.registry[a] < |s.runs| && s.runs[s.registry[a]].agent == a)
    && (forall r :: r in s.fired || r in s.lost ==> r < |s.runs|)
    && (forall r: nat :: r < |s.runs| ==> TokenInv(s, r))
  }

  /** Register and unregister: at most the token found under the key changes hands. */
  lemma RegistryStepKeepsRegistry(s: State, r: nat, up: bool)
    requires RegistryInv(s) && CanStep(s, RunStep(r, up)) && (s.runs[r].pc.Register? || s.runs[r].pc.Unregister?)
    ensures RegistryInv(RunNext(s, r, up))
  {
    var t := RunNext(s, r, up);
    forall q: nat | q < |t.runs| ensures TokenInv(t, q) {
      assert TokenInv(s, q) && TokenInv(s, r);
    }
  }

  /** The other statements do not touch the registry, and do not cross its boundaries. */
  lemma QuietEffect(s: State, r: nat, run: Run, up: bool)
    requires !run.pc.Register? && !run.pc.Unregister?
    ensures var t := Effect(s, r, run, up); t.registry == s.registry && t.fired == s.fired && t.lost == s.lost
  {
  }

  lemma SetupStaysSetup(s: State, run: Run, up: bool)
    requires !WasRegistered(run.pc) && !run.pc.Register?
    ensures !WasRegistered(NextRun(s, run, up).pc)
  {
  }

  lemma FlightGoesOn(s: State, run: Run, up: bool)
    requires InFlight(run.pc) && !run.pc.Unregister?
    ensures InFlight(NextRun(s, run, up).pc)
  {
  }

  lemma QuietRun(s: State, run: Run, up: bool)
    requires !run.pc.Register? && !run.pc.Unregister?
    ensures var u := NextRun(s, run, up);
            InFlight(u.pc) == InFlight(run.pc) && WasRegistered(u.pc) == WasRegistered(run.pc)
  {
    if InFlight(run.pc) { FlightGoesOn(s, run, up); }
    if !WasRegistered(run.pc) { SetupStaysSetup(s, run, up); }
  }

  lemma SameCall(s: State, run: Run, up: bool)
    ensures var u := NextRun(s, run, up);
            u.agent == run.agent && u.resumed == run.resumed && u.iterations == run.iterations && u.capped == run.capped
  {
  }

  lemma RunStepKeepsRegistry(s: State, r: nat, up: bool)
    requires RegistryInv(s) && CanStep(s, RunStep(r, up))
    ensures RegistryInv(RunNext(s, r, up))
  {
    var run := s.runs[r];
    if run.pc.Register? || run.pc.Unregister? {
      RegistryStepKeepsRegistry(s, r, up);
    } else {
      QuietEffect(s, r, run, up);
      QuietRun(s, run, up);
      SameCall(s, run, up);
      SameRegistry(s, RunNext(s, r, up));
    }
  }

  /** What the registry facts depend on. */
  lemma SameRegistry(s: State, t: State)
    requires RegistryInv(s) && t.registry == s.registry && t.fired == s.fired && t.lost == s.lost
    requires |t.runs| == |s.runs|
    requires forall q: nat :: q < |s.runs| ==>
               && t.runs[q].agent == s.runs[q].agent
               && InFlight(t.runs[q].pc) == InFlight(s.runs[q].pc)
               && WasRegistered(t.runs[q].pc) == WasRegistered(s.runs[q].pc)
    ensures RegistryInv(t)
  {
    forall q: nat | q < |t.runs| ensures TokenInv(t, q) {
      assert TokenInv(s, q);
    }
  }

  lemma KillStepKeepsRegistry(s: State, k: nat, up: bool)
    requires RegistryInv(s) && CanStep(s, KillStep(k, up))
    ensures RegistryInv(KillNext(s, k, up))
  {
    var t := KillNext(s, k, up);
    forall q: nat | q < |t.runs| ensures TokenInv(t, q) {
      assert TokenInv(s, q);
    }
  }

  lemma StepKeepsRegistry(s: State, step: Step)
    requires RegistryInv(s) && CanStep(s, step)
    ensures RegistryInv(Next(s, step))
  {
    match step {
      case RunStep(r, up) => RunStepKeepsRegistry(s, r, up);
      case KillStep(k, up) => KillStepKeepsRegistry(s, k, up);
      case _ =>
        var t := Next(s, step);
        forall q: nat | q < |t.runs| ensures TokenInv(t, q) {
          assert q < |s.runs| ==> TokenInv(s, q);
        }
    }
  }

  // ---- Events ----

  function TraceOf(events: seq<Event>, r: nat): seq<Event> {
    if events == [] then []
    else
      var e := events[|events| - 1];
      TraceOf(events[..|events| - 1], r) + if e.run == r then [e] else []
  }

  /** Progress with iterations 1, 2, ..., n. */
  function Beats(r: nat, n: nat): (es: seq<Event>)
    ensures |es| == n && forall k :: 0 <= k < n ==> es[k] == EvProgress(r, k + 1)
  {
    if n == 0 then [] else Beats(r, n - 1) + [EvProgress(r, n)]
  }

  predicate Looped(pc: Pc) { WasRegistered(pc) && !pc.EmitSpawned? }

  function ExpectedTrace(r: nat, run: Run): seq<Event> {
    (if Looped(run.pc) && !run.resumed then [EvSpawned(r)] else [])
    + Beats(r, run.iterations)
    + (if run.pc.Returned? then [ResultEvent(r, run.pc.result)] else [])
  }

  ghost predicate RunTraceInv(events: seq<Event>, r: nat, run: Run) {
    && TraceOf(events, r) == ExpectedTrace(r, run)
    && (!Looped(run.pc) ==> run.iterations == 0)
    && (run.pc.EmitSpawned? ==> !run.resumed)
  }

  ghost predicate TraceInv(s: State) {
    && (forall k :: 0 <= k < |s.events| ==> s.events[k].run < |s.runs|)
    && (forall r: nat :: r < |s.runs| ==> RunTraceInv(s.events, r, s.runs[r]))
  }

  lemma TraceSnoc(events: seq<Event>, e: Event, r: nat)
    ensures TraceOf(events + [e], r) == TraceOf(events, r) + if e.run == r then [e] else []
  {
    assert (events + [e])[..|events|] == events;
  }

  lemma {:induction false} NoTrace(events: seq<Event>, r: nat)
    requires forall k :: 0 <= k < |events| ==> events[k].run != r
    ensures TraceOf(events, r) == []
  {
    if events == [] {
    } else {
      NoTrace(events[..|events| - 1], r);
    }
  }

  /** Run `r` becomes `run` and perhaps emits one event of its own; the other traces do not change. */
  lemma OneEmits(s: State, t: State, r: nat, run: Run, out: seq<Event>)
    requires TraceInv(s) && r < |s.runs| && |out| <= 1 && (forall k :: 0 <= k < |out| ==> out[k].run == r)
    requires t.runs == s.runs[r := run] && t.events == s.events + out
    requires TraceOf(s.events, r) + out == ExpectedTrace(r, run)
    requires (!Looped(run.pc) ==> run.iterations == 0) && (run.pc.EmitSpawned? ==> !run.resumed)
    ensures TraceInv(t)
  {
    forall q: nat | q < |t.runs| ensures RunTraceInv(t.events, q, t.runs[q]) {
      assert RunTraceInv(s.events, q, s.runs[q]);
      if out == [] {
        assert t.events == s.events;
      } else {
        assert out == [out[0]];
        TraceSnoc(s.events, out[0], q);
      }
    }
  }

  function Emits(r: nat, pc: Pc): seq<Event> {
    match pc
    case EmitSpawned => [EvSpawned(r)]
    case EmitResult(result) => [ResultEvent(r, result)]
    case _ => []
  }

  lemma EffectEmits(s: State, r: nat, run: Run, up: bool)
    ensures Effect(s, r, run, up).events == s.events + Emits(r, run.pc)
  {
    assert s.events + [] == s.events;
  }

  lemma RunStepEmits(s: State, r: nat, run: Run, up: bool)
    requires !run.pc.Looping? && !run.pc.Returned? && !run.pc.Abandoned?
    requires RunTraceInv(s.events, r, run)
    ensures var u := NextRun(s, run, up);
            && TraceOf(s.events, r) + Emits(r, run.pc) == ExpectedTrace(r, u)
            && (!Looped(u.pc) ==> u.iterations == 0) && (u.pc.EmitSpawned? ==> !u.resumed)
  {
    SameCall(s, run, up);
    var u := NextRun(s, run, up);
    if !run.pc.Register? && !run.pc.Unregister? { QuietRun(s, run, up); }
    if run.pc.EmitSpawned? {
      assert Beats(r, 0) == [];
    } else if !run.pc.EmitResult? {
      assert !u.pc.Returned? && (Looped(u.pc) == Looped(run.pc) || u.resumed);
      assert Emits(r, run.pc) == [];
    }
  }

  lemma NewRunKeepsTrace(s: State, t: State, run: Run)
    requires TraceInv(s) && t.runs == s.runs + [run] && t.events == s.events
    requires run.iterations == 0 && !Looped(run.pc) && !run.pc.EmitSpawned?
    ensures TraceInv(t)
  {
    NoTrace(s.events, |s.runs|);
    forall q: nat | q < |t.runs| ensures RunTraceInv(t.events, q, t.runs[q]) {
      assert q < |s.runs| ==> RunTraceInv(s.events, q, s.runs[q]);
    }
  }

  lemma BeatOn(r: nat, run: Run)
    requires run.pc.Looping?
    ensures ExpectedTrace(r, run.(iterations := run.iterations + 1))
              == ExpectedTrace(r, run) + [EvProgress(r, run.iterations + 1)]
  {
  }

  lemma RunStepKeepsTrace(s: State, r: nat, up: bool)
    requires TraceInv(s) && CanStep(s, RunStep(r, up))
    ensures TraceInv(RunNext(s, r, up))
  {
    var run := s.runs[r];
    assert RunTraceInv(s.events, r, run);
    EffectEmits(s, r, run, up);
    RunStepEmits(s, r, run, up);
    OneEmits(s, RunNext(s, r, up), r, NextRun(s, run, up), Emits(r, run.pc));
  }

  lemma HeartbeatKeepsTrace(s: State, r: nat)
    requires TraceInv(s) && CanStep(s, Heartbeat(r))
    ensures TraceInv(Next(s, Heartbeat(r)))
  {
    var run := s.runs[r];
    assert RunTraceInv(s.events, r, run);
    BeatOn(r, run);
    OneEmits(s, Next(s, Heartbeat(r)), r, run.(iterations := run.iterations + 1), [EvProgress(r, run.iterations + 1)]);
  }

  lemma EndLoopKeepsTrace(s: State, r: nat, loopResult: LoopResult)
    requires TraceInv(s) && CanStep(s, EndLoop(r, loopResult))
    ensures TraceInv(Next(s, EndLoop(r, loopResult)))
  {
    assert RunTraceInv(s.events, r, s.runs[r]);
    assert s.events + [] == s.events;
    OneEmits(s, Next(s, EndLoop(r, loopResult)), r, EndedLoop(s.runs[r], loopResult), []);
  }

  lemma KillStepIsSilent(s: State, k: nat, up: bool)
    requires k < |s.kills|
    ensures KillNext(s, k, up).events == s.events && KillNext(s, k, up).runs == s.runs
  {
  }

  lemma StepKeepsTrace(s: State, step: Step)
    requires TraceInv(s) && CanStep(s, step)
    ensures TraceInv(Next(s, step))
  {
    match step {
      case BeginSpawn(a) => NewRunKeepsTrace(s, Next(s, step), Run(a, false, InsertSession, 0, false, false));
      case BeginResume(a) => NewRunKeepsTrace(s, Next(s, step), Run(a, true, GetRow, 0, false, false));
      case BeginKill(_) => KillKeepsTrace(s, Next(s, step));
      case KillStep(k, up) =>
        KillStepIsSilent(s, k, up);
        KillKeepsTrace(s, KillNext(s, k, up));
      case Heartbeat(r) => HeartbeatKeepsTrace(s, r);
      case EndLoop(r, loopResult) => EndLoopKeepsTrace(s, r, loopResult);
      case RunStep(r, up) => RunStepKeepsTrace(s, r, up);
    }
  }

  lemma KillKeepsTrace(s: State, t: State)
    requires TraceInv(s) && t.events == s.events && t.runs == s.runs
    ensures TraceInv(t)
  {
  }

  // ---- Status rows ----

  /** A stored summary is never empty, and a row that stopped at its cap has one. */
  predicate GoodRow(row: Row) {
    && (row.summary.Some? ==> row.summary.value != "")
    && (row.status.StoppedTurn? ==> row.summary.Some?)
  }

  ghost predicate Wrote(writes: seq<Write>, r: nat, status: Status) {
    exists i :: 0 <= i < |writes| && writes[i].actor == ByRun(r) && writes[i].row.status == status
  }

  predicate HasRow(pc: Pc) { !(pc.InsertSession? || pc.InsertRow? || pc.GetRow? || pc.Abandoned?) }

  predicate Ended(pc: Pc) { pc.Unregister? || pc.EmitResult? || pc.Returned? }

  /** The statements of update_status(target). */
  predicate Updates(pc: Pc, target: Status) { (pc.ReadStatus? || pc.WriteStatus?) && pc.target == target }

  /** What a call's own fields say at each of its statements. */
  predicate RunShape(run: Run) {
    var pc := run.pc;
    && (pc.ReadStatus? || pc.WriteStatus? ==> pc.target.Running? || pc.target.Idle? || pc.target.StoppedTurn?)
    && (pc.SetSummary? || Updates(pc, StoppedTurn) ==> run.capped)
    && (run.capped ==> pc.SetSummary? || Updates(pc, StoppedTurn) || (Ended(pc) && pc.result.None?))
    && (Ended(pc) && pc.result.Some? ==> pc.result == Some(Idle))
    && (run.refused ==> Ended(pc) && pc.result.None?)
  }

  /** Which status writes a call has made, told from where it is. */
  ghost predicate WriteInv(writes: seq<Write>, r: nat, run: Run) {
    && (Wrote(writes, r, Idle) <==> Ended(run.pc) && run.pc.result == Some(Idle))
    && (Wrote(writes, r, StoppedTurn) <==> Ended(run.pc) && run.capped && !run.refused)
  }

  ghost predicate RowInv(rows: map<Id, Row>, run: Run) {
    && (HasRow(run.pc) ==> run.agent in rows)
    && (Updates(run.pc, StoppedTurn) ==> run.agent in rows && rows[run.agent].summary.Some?)
  }

  ghost predicate StatusInv(s: State) {
    && (forall a :: a in s.rows ==> GoodRow(s.rows[a]))
    && (forall i :: 0 <= i < |s.writes| ==> GoodRow(s.writes[i].row))
    && (forall i :: 0 <= i < |s.writes| && s.writes[i].actor.ByRun? ==> s.writes[i].actor.run < |s.runs|)
    && (forall r: nat :: r < |s.runs| ==>
          RunShape(s.runs[r]) && WriteInv(s.writes, r, s.runs[r]) && RowInv(s.rows, s.runs[r]))
  }

  /** Rows are only added, keep their summaries, and stay good. */
  ghost predicate RowsGrow(was: map<Id, Row>, now: map<Id, Row>) {
    && (forall a :: a in was ==> a in now && (was[a].summary.Some? ==> now[a].summary.Some?))
    && (forall a :: a in now ==> GoodRow(now[a]))
  }

  /** The writes of one step: at most one. */
  ghost predicate WritesGrow(was: seq<Write>, now: seq<Write>, actor: Actor) {
    now == was || (|now| == |was| + 1 && now[..|was|] == was && now[|was|].actor == actor && GoodRow(now[|was|].row))
  }

  lemma SetStatusGrows(s: State, actor: Actor, agent: Id, status: Status)
    requires forall a :: a in s.rows ==> GoodRow(s.rows[a])
    requires status.StoppedTurn? ==> agent in s.rows && s.rows[agent].summary.Some?
    ensures var t := SetStatus(s, actor, agent, status);
            RowsGrow(s.rows, t.rows) && WritesGrow(s.writes, t.writes, actor)
  {
  }

  lemma SummarySetGrows(s: State, agent: Id, content: string)
    requires forall a :: a in s.rows ==> GoodRow(s.rows[a])
    ensures var t := SummarySet(s, agent, content);
            && RowsGrow(s.rows, t.rows) && t.writes == s.writes
            && (agent in s.rows ==> t.rows[agent].summary.Some?)
  {
    SummaryIsShortAndNotEmpty(content, s.white);
  }

  lemma EffectGrows(s: State, r: nat, run: Run, up: bool)
    requires forall a :: a in s.rows ==> GoodRow(s.rows[a])
    requires RunShape(run) && RowInv(s.rows, run)
    ensures var t := Effect(s, r, run, up); RowsGrow(s.rows, t.rows) && WritesGrow(s.writes, t.writes, ByRun(r))
  {
    match run.pc {
      case WriteStatus(target) => SetStatusGrows(s, ByRun(r), run.agent, target);
      case SetSummary(content) => SummarySetGrows(s, run.agent, content);
      case _ =>
    }
  }

  lemma RowIsThere(s: State, r: nat, run: Run, up: bool)
    requires HasRow(run.pc) ==> run.agent in s.rows
    ensures HasRow(NextRun(s, run, up).pc) ==> run.agent in Effect(s, r, run, up).rows
  {
  }

  /** A call is about to write StoppedTurn only after its summary is stored. */
  lemma SummaryIsThere(s: State, r: nat, run: Run, up: bool)
    requires HasRow(run.pc) ==> run.agent in s.rows
    requires Updates(run.pc, StoppedTurn) ==> run.agent in s.rows && s.rows[run.agent].summary.Some?
    ensures Updates(NextRun(s, run, up).pc, StoppedTurn) ==>
              run.agent in Effect(s, r, run, up).rows && Effect(s, r, run, up).rows[run.agent].summary.Some?
  {
    if Updates(NextRun(s, run, up).pc, StoppedTurn) {
      assert run.pc.SetSummary? || run.pc == ReadStatus(StoppedTurn);
    }
  }

  lemma EffectOnRow(s: State, r: nat, run: Run, up: bool)
    requires RowInv(s.rows, run)
    ensures RowInv(Effect(s, r, run, up).rows, NextRun(s, run, up))
  {
    SameCall(s, run, up);
    RowIsThere(s, r, run, up);
    SummaryIsThere(s, r, run, up);
  }

  lemma ShapeStays(s: State, run: Run, up: bool)
    requires RunShape(run)
    ensures RunShape(NextRun(s, run, up))
  {
  }

  /** A write by one actor is not a write by another. */
  lemma OthersWrites(was: seq<Write>, now: seq<Write>, actor: Actor, q: nat, status: Status)
    requires WritesGrow(was, now, actor) && actor != ByRun(q)
    ensures Wrote(now, q, status) <==> Wrote(was, q, status)
  {
    if now != was {
      assert forall i :: 0 <= i < |was| ==> now[i] == now[..|was|][i];
    }
  }

  lemma OwnWrite(was: seq<Write>, w: Write, r: nat, status: Status)
    requires w.actor == ByRun(r)
    ensures Wrote(was + [w], r, status) <==> Wrote(was, r, status) || w.row.status == status
  {
    assert (was + [w])[|was|] == w;
    assert forall i :: 0 <= i < |was| ==> (was + [w])[i] == was[i];
  }

  lemma OwnWritesKept(s: State, r: nat, run: Run, up: bool)
    requires RunShape(run) && WriteInv(s.writes, r, run) && RowInv(s.rows, run)
    ensures WriteInv(Effect(s, r, run, up).writes, r, NextRun(s, run, up))
  {
    if run.pc.WriteStatus? && up {
      var w := Write(ByRun(r), run.agent, s.rows[run.agent].(status := run.pc.target));
      assert Effect(s, r, run, up).writes == s.writes + [w];
      OwnWrite(s.writes, w, r, Idle);
      OwnWrite(s.writes, w, r, StoppedTurn);
    } else {
      assert Effect(s, r, run, up).writes == s.writes;
    }
  }

  lemma RunStepKeepsStatus(s: State, r: nat, up: bool)
    requires StatusInv(s) && CanStep(s, RunStep(r, up))
    ensures StatusInv(RunNext(s, r, up))
  {
    var run, t := s.runs[r], RunNext(s, r, up);
    EffectGrows(s, r, run, up);
    EffectOnRow(s, r, run, up);
    ShapeStays(s, run, up);
    OwnWritesKept(s, r, run, up);
    OneActs(s, t, ByRun(r));
  }

  /** After a step that grows rows and writes, it is enough to look at the run that moved. */
  lemma OneActs(s: State, t: State, actor: Actor)
    requires StatusInv(s) && |t.runs| == |s.runs|
    requires RowsGrow(s.rows, t.rows) && WritesGrow(s.writes, t.writes, actor)
    requires actor.ByRun? ==> actor.run < |s.runs|
    requires forall q: nat :: q < |s.runs| && actor != ByRun(q) ==> t.runs[q] == s.runs[q]
    requires actor.ByRun? ==>
               var u := t.runs[actor.run]; RunShape(u) && WriteInv(t.writes, actor.run, u) && RowInv(t.rows, u)
    ensures StatusInv(t)
  {
    forall q: nat | q < |t.runs|
      ensures RunShape(t.runs[q]) && WriteInv(t.writes, q, t.runs[q]) && RowInv(t.rows, t.runs[q])
    {
      if actor != ByRun(q) {
        OthersWrites(s.writes, t.writes, actor, q, Idle);
        OthersWrites(s.writes, t.writes, actor, q, StoppedTurn);
      }
    }
    assert forall i :: 0 <= i < |s.writes| ==> t.writes[i] == t.writes[..|s.writes|][i];
  }

  lemma KillStepKeepsStatus(s: State, k: nat, up: bool)
    requires StatusInv(s) && CanStep(s, KillStep(k, up))
    ensures StatusInv(KillNext(s, k, up))
  {
    KillStepIsSilent(s, k, up);
    SetStatusGrows(s, ByKill(k), s.kills[k].agent, Killed);
    OneActs(s, KillNext(s, k, up), ByKill(k));
  }

  lemma NewRunKeepsStatus(s: State, t: State, run: Run)
    requires StatusInv(s) && t.runs == s.runs + [run] && t.rows == s.rows && t.writes == s.writes
    requires RunShape(run) && !HasRow(run.pc) && !Ended(run.pc)
    ensures StatusInv(t)
  {
    assert !Wrote(s.writes, |s.runs|, Idle) && !Wrote(s.writes, |s.runs|, StoppedTurn);
  }

  lemma MovedRunKeepsStatus(s: State, t: State, r: nat)
    requires StatusInv(s) && r < |s.runs| && t.rows == s.rows && t.writes == s.writes
    requires |t.runs| == |s.runs| && forall q: nat :: q < |s.runs| && q != r ==> t.runs[q] == s.runs[q]
    requires var u := t.runs[r]; RunShape(u) && WriteInv(s.writes, r, u) && RowInv(s.rows, u)
    ensures StatusInv(t)
  {
    OneActs(s, t, ByRun(r));
  }

  lemma StepKeepsStatus(s: State, step: Step)
    requires StatusInv(s) && CanStep(s, step)
    ensures StatusInv(Next(s, step))
  {
    match step {
      case BeginSpawn(a) => NewRunKeepsStatus(s, Next(s, step), Run(a, false, InsertSession, 0, false, false));
      case BeginResume(a) => NewRunKeepsStatus(s, Next(s, step), Run(a, true, GetRow, 0, false, false));
      case BeginKill(_) =>
      case Heartbeat(r) => MovedRunKeepsStatus(s, Next(s, step), r);
      case EndLoop(r, loopResult) => MovedRunKeepsStatus(s, Next(s, step), r);
      case RunStep(r, up) => RunStepKeepsStatus(s, r, up);
      case KillStep(k, up) => KillStepKeepsStatus(s, k, up);
    }
  }

  // ---- Kills ----

  /** A kill fired at most one token, of a run of its agent; each fired token was fired by one kill. */
  ghost predicate KillInv(s: State) {
    && (forall k :: 0 <= k < |s.kills| && s.kills[k].hit.Some? ==>
          var r := s.kills[k].hit.value; r in s.fired && r < |s.runs| && s.runs[r].agent == s.kills[k].agent)
    && (forall j, k :: 0 <= j < k < |s.kills| && s.kills[j].hit.Some? ==> s.kills[j].hit != s.kills[k].hit)
    && (forall r :: r in s.fired ==> exists k :: 0 <= k < |s.kills| && s.kills[k].hit == Some(r))
    && (forall k :: 0 <= k < |s.kills| && (s.kills[k].pc.KillGet? || s.kills[k].pc.KillCancel?) ==>
          s.kills[k].hit.None?)
  }

  predicate BeforeHit(pc: KillPc) { pc.KillGet? || pc.KillCancel? }

  /** Steps that fire nothing. */
  lemma NothingFired(s: State, t: State)
    requires KillInv(s) && t.fired == s.fired && |t.runs| >= |s.runs| && |t.kills| >= |s.kills|
    requires forall r: nat :: r < |s.runs| ==> t.runs[r].agent == s.runs[r].agent
    requires forall j :: 0 <= j < |s.kills| ==> t.kills[j].agent == s.kills[j].agent && t.kills[j].hit == s.kills[j].hit
    requires forall j :: 0 <= j < |s.kills| && BeforeHit(t.kills[j].pc) ==> BeforeHit(s.kills[j].pc)
    requires forall j :: |s.kills| <= j < |t.kills| ==> t.kills[j].hit.None?
    ensures KillInv(t)
  {
    forall r | r in t.fired ensures exists j :: 0 <= j < |t.kills| && t.kills[j].hit == Some(r) {
      var j :| 0 <= j < |s.kills| && s.kills[j].hit == Some(r);
      assert t.kills[j].hit == Some(r);
    }
  }

  /** Kill `k` fires the token of run `r`, fired by nobody before. */
  lemma OneFired(s: State, t: State, k: nat, kill: Kill, r: nat)
    requires KillInv(s) && k < |s.kills| && s.kills[k].hit.None? && r !in s.fired
    requires t.fired == s.fired + {r} && t.runs == s.runs && t.kills == s.kills[k := kill]
    requires kill.hit == Some(r) && !BeforeHit(kill.pc) && kill.agent == s.kills[k].agent
    requires r < |s.runs| && s.runs[r].agent == kill.agent
    ensures KillInv(t)
  {
    assert t.kills[k] == kill && forall j :: 0 <= j < |s.kills| && j != k ==> t.kills[j] == s.kills[j];
    forall q | q in t.fired ensures exists j :: 0 <= j < |t.kills| && t.kills[j].hit == Some(q) {
      if q != r {
        var j :| 0 <= j < |s.kills| && s.kills[j].hit == Some(q);
        assert t.kills[j].hit == Some(q);
      }
    }
  }

  lemma RunStepKeepsKills(s: State, r: nat, up: bool)
    requires KillInv(s) && CanStep(s, RunStep(r, up))
    ensures KillInv(RunNext(s, r, up))
  {
    SameCall(s, s.runs[r], up);
    var e := Effect(s, r, s.runs[r], up);
    assert e.kills == s.kills && e.fired == s.fired && e.runs == s.runs;
    NothingFired(s, RunNext(s, r, up));
  }

  lemma KillStepKeepsKills(s: State, k: nat, up: bool)
    requires KillInv(s) && RegistryInv(s) && CanStep(s, KillStep(k, up))
    ensures KillInv(KillNext(s, k, up))
  {
    var t, kill := KillNext(s, k, up), s.kills[k];
    KillStepIsSilent(s, k, up);
    if kill.pc.KillCancel? && kill.agent in s.registry {
      var r := s.registry[kill.agent];
      assert TokenInv(s, r);
      OneFired(s, t, k, t.kills[k], r);
    } else {
      NothingFired(s, t);
    }
  }

  lemma StepKeepsKills(s: State, step: Step)
    requires KillInv(s) && RegistryInv(s) && CanStep(s, step)
    ensures KillInv(Next(s, step))
  {
    match step {
      case RunStep(r, up) => RunStepKeepsKills(s, r, up);
      case KillStep(k, up) => KillStepKeepsKills(s, k, up);
      case _ => NothingFired(s, Next(s, step));
    }
  }

  // ---- Every interleaving ----

  ghost predicate Inv(s: State) { RegistryInv(s) && TraceInv(s) && StatusInv(s) && KillInv(s) }

  lemma StepKeepsInv(s: State, step: Step)
    requires Inv(s) && CanStep(s, step)
    ensures Inv(Next(s, step))
  {
    StepKeepsRegistry(s, step);
    StepKeepsTrace(s, step);
    StepKeepsStatus(s, step);
    StepKeepsKills(s, step);
  }

  lemma {:induction false} RunKeepsInv(s: State, run: seq<Step>)
    requires Inv(s) && Runs(s, run)
    ensures Inv(After(s, run))
    decreases |run|
  {
    if run == [] {
    } else {
      StepKeepsInv(s, run[0]);
      RunKeepsInv(Next(s, run[0]), run[1..]);
    }
  }

  /**
   Cancel tokens, in every interleaving: the registry holds tokens of runs in
   flight only; a run in flight without its token was killed, by exactly one
   kill, or had the token thrown out by another call for the same agent.
   */
  lemma TokensInEveryInterleaving(white: Whitespace, run: seq<Step>)
    requires Runs(Start(white), run)
    ensures var s := After(Start(white), run);
            && (forall a :: a in s.registry ==>
                  var r := s.registry[a]; r < |s.runs| && s.runs[r].agent == a && InFlight(s.runs[r].pc))
            && (forall r: nat :: r < |s.runs| && InFlight(s.runs[r].pc) ==>
                  (Registered(s, r) <==> r !in s.fired && r !in s.lost))
            && (forall r :: r in s.fired ==> exists k :: 0 <= k < |s.kills| && s.kills[k].hit == Some(r))
            && (forall j, k :: 0 <= j < k < |s.kills| && s.kills[j].hit.Some? ==> s.kills[j].hit != s.kills[k].hit)
  {
    RunKeepsInv(Start(white), run);
    var s := After(Start(white), run);
    forall a | a in s.registry ensures InFlight(s.runs[s.registry[a]].pc) {
      assert TokenInv(s, s.registry[a]);
    }
    forall r: nat | r < |s.runs| && InFlight(s.runs[r].pc)
      ensures Registered(s, r) <==> r !in s.fired && r !in s.lost
    {
      assert TokenInv(s, r);
    }
  }

  /**
   A token is thrown out exactly by a register or unregister of another call
   that finds it under its own agent's key.
   */
  lemma LostIff(s: State, step: Step, r: nat)
    requires RegistryInv(s) && CanStep(s, step) && r < |s.runs| && r !in s.lost
    ensures r in Next(s, step).lost <==>
              && step.RunStep? && step.r != r && Registered(s, r) && s.runs[step.r].agent == s.runs[r].agent
              && (s.runs[step.r].pc.Register? || s.runs[step.r].pc.Unregister?)
  {
    assert TokenInv(s, r);
    if step.RunStep? {
      assert TokenInv(s, step.r);
    }
  }

  /** Lifecycle events, in every interleaving: Spawned, then Progress 1, 2, ..., then one Completed or Cancelled. */
  lemma EventsInEveryInterleaving(white: Whitespace, run: seq<Step>, r: nat)
    requires Runs(Start(white), run) && r < |After(Start(white), run).runs|
    ensures var s := After(Start(white), run); TraceOf(s.events, r) == ExpectedTrace(r, s.runs[r])
    ensures var s := After(Start(white), run);
            !WasRegistered(s.runs[r].pc) ==> TraceOf(s.events, r) == []
  {
    RunKeepsInv(Start(white), run);
    var s := After(Start(white), run);
    assert RunTraceInv(s.events, r, s.runs[r]);
    assert Beats(r, 0) == [];
  }

  /** A finalization gives up at this step: a repository call of it fails, or finds the row terminal. */
  ghost predicate GivesUp(s: State, step: Step, r: nat) {
    && step.RunStep? && step.r == r && r < |s.runs|
    && (s.runs[r].pc.SetSummary? || Settles(s.runs[r].pc))
    && (!step.up || (s.runs[r].pc.ReadStatus? && !MayWrite(s, s.runs[r].agent)))
  }

  ghost predicate GaveUp(s: State, run: seq<Step>, r: nat)
    requires Runs(s, run)
    decreases |run|
  {
    run != [] && (GivesUp(s, run[0], r) || GaveUp(Next(s, run[0]), run[1..], r))
  }

  predicate IsRefused(s: State, r: nat) { r < |s.runs| && s.runs[r].refused }

  lemma StepRefuses(s: State, step: Step, r: nat)
    requires CanStep(s, step)
    ensures IsRefused(Next(s, step), r) <==> IsRefused(s, r) || GivesUp(s, step, r)
  {
    if step.KillStep? { KillStepIsSilent(s, step.k, step.up); }
  }

  /** `refused` remembers exactly that. */
  lemma {:induction false} RefusedIff(s: State, run: seq<Step>, r: nat)
    requires Runs(s, run)
    ensures IsRefused(After(s, run), r) <==> IsRefused(s, r) || GaveUp(s, run, r)
    decreases |run|
  {
    if run == [] {
    } else {
      StepRefuses(s, run[0], r);
      RefusedIff(Next(s, run[0]), run[1..], r);
    }
  }

  /**
   How a call ends, in every interleaving: it reports Completed, with success,
   exactly when its own finalization wrote Idle, and Cancelled otherwise; after
   a cap hit it reports Cancelled, and it wrote StoppedTurn, over a non-empty
   summary, exactly when no repository call of its finalization failed or found
   the row terminal.
   */
  lemma OutcomesInEveryInterleaving(white: Whitespace, run: seq<Step>, r: nat)
    requires Runs(Start(white), run) && r < |After(Start(white), run).runs|
    requires After(Start(white), run).runs[r].pc.Returned?
    ensures var s := After(Start(white), run);
            var trace := TraceOf(s.events, r);
            && trace != []
            && (trace[|trace| - 1] == EvCompleted(r, true) <==> Wrote(s.writes, r, Idle))
            && (trace[|trace| - 1] == EvCancelled(r) <==> !Wrote(s.writes, r, Idle))
            && (s.runs[r].capped ==> !Wrote(s.writes, r, Idle))
            && (s.runs[r].capped ==>
                  ((exists i :: StoppedWithSummary(s.writes, i, r)) <==> !GaveUp(Start(white), run, r)))
  {
    RunKeepsInv(Start(white), run);
    var s := After(Start(white), run);
    RefusedIff(Start(white), run, r);
    assert RunTraceInv(s.events, r, s.runs[r]);
    assert RunShape(s.runs[r]) && WriteInv(s.writes, r, s.runs[r]);
    EndsWithResult(r, s.runs[r]);
    if Wrote(s.writes, r, StoppedTurn) { HasStopped(s, r); }
  }

  lemma EndsWithResult(r: nat, run: Run)
    requires run.pc.Returned?
    ensures ExpectedTrace(r, run) != []
              && ExpectedTrace(r, run)[|ExpectedTrace(r, run)| - 1] == ResultEvent(r, run.pc.result)
  {
  }

  lemma HasStopped(s: State, r: nat)
    requires StatusInv(s) && Wrote(s.writes, r, StoppedTurn)
    ensures exists i :: StoppedWithSummary(s.writes, i, r)
  {
    var i :| 0 <= i < |s.writes| && s.writes[i].actor == ByRun(r) && s.writes[i].row.status == StoppedTurn;
    assert GoodRow(s.writes[i].row);
    assert StoppedWithSummary(s.writes, i, r);
  }

  ghost predicate StoppedWithSummary(writes: seq<Write>, i: int, r: nat) {
    && 0 <= i < |writes| && writes[i].actor == ByRun(r)
    && writes[i].row.status == StoppedTurn && writes[i].row.summary.Some? && writes[i].row.summary.value != ""
  }

  predicate AtRest(s: State) {
    forall r :: 0 <= r < |s.runs| ==> s.runs[r].pc.Returned? || s.runs[r].pc.Abandoned?
  }

  /** When every call has returned, whatever its outcome, no token is left. */
  lemma NoStaleTokens(white: Whitespace, run: seq<Step>)
    requires Runs(Start(white), run) && AtRest(After(Start(white), run))
    ensures After(Start(white), run).registry == map[]
  {
    TokensInEveryInterleaving(white, run);
  }

  // ---- Races of update_status ----

  lemma RunChangesStatusIff(s: State, r: nat, up: bool, agent: Id, status: Status)
    requires r < |s.runs| && agent in s.rows && s.rows[agent].status != status
    ensures agent in RunNext(s, r, up).rows
    ensures RunNext(s, r, up).rows[agent].status == status
       <==> up && s.runs[r].agent == agent && s.runs[r].pc == WriteStatus(status)
  {
    var t := Effect(s, r, s.runs[r], up);
    assert RunNext(s, r, up).rows == t.rows;
  }

  /** Nobody is between the read and the write of an update that would change this status of the agent. */
  ghost predicate NoStaleWrite(s: State, agent: Id, status: Status) {
    && (forall r :: 0 <= r < |s.runs| && s.runs[r].agent == agent && s.runs[r].pc.WriteStatus? ==>
          s.runs[r].pc.target == status)
    && (status != Killed ==> forall k :: 0 <= k < |s.kills| && s.kills[k].agent == agent ==> !s.kills[k].pc.KillWrite?)
  }

  /** The row has this terminal status, and no write of another one is under way. */
  ghost predicate Final(s: State, agent: Id, status: Status) {
    agent in s.rows && s.rows[agent].status == status && Terminal(status) && NoStaleWrite(s, agent, status)
  }

  lemma RunStepKeepsFinal(s: State, r: nat, up: bool, agent: Id, status: Status)
    requires Final(s, agent, status) && r < |s.runs|
    ensures Final(RunNext(s, r, up), agent, status)
  {
    var t, run := RunNext(s, r, up), s.runs[r];
    StatusStays(s, r, up, agent, status);
    SameCall(s, run, up);
    if run.agent == agent { NoNewWrite(s, run, up, agent); }
    assert t.kills == s.kills by { EffectOnKills(s, r, run, up); }
  }

  lemma EffectOnKills(s: State, r: nat, run: Run, up: bool)
    ensures Effect(s, r, run, up).kills == s.kills
  {
  }

  lemma StatusStays(s: State, r: nat, up: bool, agent: Id, status: Status)
    requires Final(s, agent, status) && r < |s.runs|
    ensures var t := RunNext(s, r, up); agent in t.rows && t.rows[agent].status == status
  {
    var run, t := s.runs[r], Effect(s, r, s.runs[r], up);
    assert RunNext(s, r, up).rows == t.rows;
    if run.agent != agent { assert t.rows[agent] == s.rows[agent]; }
  }

  /** A call whose read finds a terminal row does not reach its write. */
  lemma NoNewWrite(s: State, run: Run, up: bool, agent: Id)
    requires agent in s.rows && Terminal(s.rows[agent].status) && run.agent == agent
    ensures !NextRun(s, run, up).pc.WriteStatus?
  {
  }

  lemma KillStepKeepsFinal(s: State, k: nat, up: bool, agent: Id, status: Status)
    requires Final(s, agent, status) && k < |s.kills|
    ensures Final(KillNext(s, k, up), agent, status)
  {
    KillStepIsSilent(s, k, up);
  }

  lemma StepKeepsFinal(s: State, step: Step, agent: Id, status: Status)
    requires Final(s, agent, status) && CanStep(s, step)
    ensures Final(Next(s, step), agent, status)
  {
    match step {
      case RunStep(r, up) => RunStepKeepsFinal(s, r, up, agent, status);
      case KillStep(k, up) => KillStepKeepsFinal(s, k, up, agent, status);
      case _ => assert Next(s, step).rows == s.rows;
    }
  }

  lemma {:induction false} RunKeepsFinal(s: State, run: seq<Step>, agent: Id, status: Status)
    requires Final(s, agent, status) && Runs(s, run)
    ensures Final(After(s, run), agent, status)
    decreases |run|
  {
    if run == [] {
    } else {
      StepKeepsFinal(s, run[0], agent, status);
      RunKeepsFinal(Next(s, run[0]), run[1..], agent, status);
    }
  }

  ghost predicate HasStatus(s: State, agent: Id, status: Status) { agent in s.rows && s.rows[agent].status == status }

  /** The write half that is under way takes the status away in one step. */
  lemma StaleWriteLands(s: State, agent: Id) returns (step: Step)
    requires agent in s.rows && !NoStaleWrite(s, agent, s.rows[agent].status)
    ensures CanStep(s, step) && !HasStatus(Next(s, step), agent, s.rows[agent].status)
  {
    var status := s.rows[agent].status;
    if r :| 0 <= r < |s.runs| && s.runs[r].agent == agent
            && s.runs[r].pc.WriteStatus? && s.runs[r].pc.target != status
    {
      step := RunStep(r, true);
      RunChangesStatusIff(s, r, true, agent, s.runs[r].pc.target);
    } else {
      var k :| 0 <= k < |s.kills| && s.kills[k].agent == agent && s.kills[k].pc.KillWrite?;
      step := KillStep(k, true);
    }
  }

  lemma OneStep(s: State, step: Step)
    requires CanStep(s, step)
    ensures Runs(s, [step]) && After(s, [step]) == Next(s, step)
  {
    assert [step][0] == step && [step][1..] == [];
    assert After(Next(s, step), []) == Next(s, step);
  }

  /**
   A terminal status survives every continuation exactly when no call and no
   kill of the agent has read the row before and still has to write another status.
   */
  lemma TerminalSurvivesIff(s: State, agent: Id)
    requires agent in s.rows && Terminal(s.rows[agent].status)
    ensures (forall run :: Runs(s, run) ==> HasStatus(After(s, run), agent, s.rows[agent].status))
        <==> NoStaleWrite(s, agent, s.rows[agent].status)
  {
    var status := s.rows[agent].status;
    if NoStaleWrite(s, agent, status) {
      forall run | Runs(s, run) ensures HasStatus(After(s, run), agent, status) {
        RunKeepsFinal(s, run, agent, status);
      }
    } else {
      var step := StaleWriteLands(s, agent);
      OneStep(s, step);
    }
  }

  // ---- Storage failures ----

  /** The statements of a setup that call the storage. */
  predicate SetupCall(pc: Pc) {
    pc.InsertSession? || pc.InsertRow? || pc.GetRow? || pc.ResetTurns? || pc.LoadMessages?
    || ((pc.ReadStatus? || pc.WriteStatus?) && pc.target.Running?)
  }

  /**
   A storage call that fails during the setup of a spawn or resume ends the call
   there and then: it changes no row, takes no token and reports nothing, now or later.
   */
  lemma FailedSetupAbandons(s: State, r: nat, run: seq<Step>)
    requires r < |s.runs| && SetupCall(s.runs[r].pc) && Runs(RunNext(s, r, false), run)
    ensures RunNext(s, r, false) == s.(runs := s.runs[r := s.runs[r].(pc := Abandoned)])
    ensures r < |After(RunNext(s, r, false), run).runs| && After(RunNext(s, r, false), run).runs[r].pc.Abandoned?
  {
    AbandonedStays(RunNext(s, r, false), r, run);
  }

  lemma {:induction false} AbandonedStays(s: State, r: nat, run: seq<Step>)
    requires r < |s.runs| && s.runs[r].pc.Abandoned? && Runs(s, run)
    ensures r < |After(s, run).runs| && After(s, run).runs[r].pc.Abandoned?
    decreases |run|
  {
    if run == [] {
    } else {
      if run[0].KillStep? { KillStepIsSilent(s, run[0].k, run[0].up); }
      AbandonedStays(Next(s, run[0]), r, run[1..]);
    }
  }

  /** A storage call that fails during a kill ends it with an error and changes no row and no token. */
  lemma FailedKillChangesNothing(s: State, k: nat)
    requires k < |s.kills| && (s.kills[k].pc.KillGet? || s.kills[k].pc.KillRead? || s.kills[k].pc.KillWrite?)
    ensures KillNext(s, k, false) == s.(kills := s.kills[k := s.kills[k].(pc := KillReturned(None))])
  {
  }

  // ---- Keeping a token ----

  /** Registered, and no final status is written yet. */
  predicate StillRunning(pc: Pc) { InFlight(pc) && !pc.Unregister? }

  /**
   Where a call can still put its own token under the key or remove the one
   there: past its first read, and not yet turned away by a terminal row.
   `writable` says whether the row still takes status writes.
   */
  predicate Threatens(pc: Pc, writable: bool) {
    match pc
    case ResetTurns => writable
    case ReadStatus(target) => writable || !target.Running?
    case WriteStatus(_) => true
    case LoadMessages => true
    case Register => true
    case EmitSpawned => true
    case Looping => true
    case SetSummary(_) => true
    case Unregister(_) => true
    case _ => false
  }

  /** The row of call r cannot be resumed, and no other call of its agent threatens the token. */
  ghost predicate Unrivalled(s: State, r: nat)
    requires r < |s.runs|
  {
    var a := s.runs[r].agent;
    && a in s.rows && !Resumable(s.rows[a].status)
    && forall q :: 0 <= q < |s.runs| && q != r && s.runs[q].agent == a ==> !Threatens(s.runs[q].pc, MayWrite(s, a))
  }

  /** The call has finished its finalization, or can be reached by a kill, or was. */
  ghost predicate Kept(s: State, r: nat) {
    r < |s.runs| && (Ended(s.runs[r].pc) || Registered(s, r) || r in s.fired)
  }

  /** Call `r` runs, unrivalled. */
  ghost predicate Alone(s: State, r: nat) {
    r < |s.runs| && StillRunning(s.runs[r].pc) && Unrivalled(s, r) && (Registered(s, r) || r in s.fired)
  }

  lemma HarmlessStays(s: State, run: Run, up: bool)
    requires run.agent in s.rows && !Resumable(s.rows[run.agent].status)
    requires !Threatens(run.pc, MayWrite(s, run.agent))
    ensures !Threatens(NextRun(s, run, up).pc, MayWrite(s, run.agent))
  {
  }

  lemma HarmlessEffect(s: State, r: nat, run: Run, up: bool)
    requires run.agent in s.rows && !Threatens(run.pc, MayWrite(s, run.agent))
    ensures var t := Effect(s, r, run, up); t.rows == s.rows && t.registry == s.registry && t.fired == s.fired
  {
  }

  /** A row that stops taking writes can only make the other calls more harmless. */
  lemma ThreatFades(pc: Pc, before: bool, now: bool)
    requires !Threatens(pc, before) && (now ==> before)
    ensures !Threatens(pc, now)
  {
  }

  /** A step of another call. */
  lemma OtherCallKeepsAlone(s: State, r: nat, q: nat, up: bool)
    requires Alone(s, r) && q < |s.runs| && q != r
    ensures Alone(RunNext(s, q, up), r)
  {
    var run, a := s.runs[q], s.runs[r].agent;
    SameCall(s, run, up);
    if run.agent == a {
      HarmlessStays(s, run, up);
      HarmlessEffect(s, q, run, up);
    } else {
      OtherAgentsEffect(s, q, run, up, a);
    }
    assert MayWrite(RunNext(s, q, up), a) == MayWrite(s, a);
  }

  lemma OtherAgentsEffect(s: State, q: nat, run: Run, up: bool, a: Id)
    requires run.agent != a && a in s.rows
    ensures var t := Effect(s, q, run, up);
            && a in t.rows && t.rows[a] == s.rows[a] && t.fired == s.fired
            && (a in t.registry <==> a in s.registry) && (a in s.registry ==> t.registry[a] == s.registry[a])
  {
  }

  /** A step of the call itself: it runs on alone, or it goes to unregister. */
  lemma OwnCallKeepsAlone(s: State, r: nat, up: bool)
    requires Alone(s, r) && CanStep(s, RunStep(r, up))
    ensures RunNext(s, r, up).runs[r].pc.Unregister? || Alone(RunNext(s, r, up), r)
  {
    var run := s.runs[r];
    SameCall(s, run, up);
    FlightGoesOn(s, run, up);
    QuietEffect(s, r, run, up);
    if !run.pc.WriteStatus? {
      assert MayWrite(RunNext(s, r, up), run.agent) == MayWrite(s, run.agent);
    }
  }

  lemma KillStepKeepsAlone(s: State, r: nat, k: nat, up: bool)
    requires Alone(s, r) && k < |s.kills|
    ensures Alone(KillNext(s, k, up), r)
  {
    KillStepIsSilent(s, k, up);
    var a, t := s.runs[r].agent, KillNext(s, k, up);
    assert MayWrite(t, a) ==> MayWrite(s, a);
    forall q | 0 <= q < |t.runs| && q != r && t.runs[q].agent == a ensures !Threatens(t.runs[q].pc, MayWrite(t, a)) {
      ThreatFades(s.runs[q].pc, MayWrite(s, a), MayWrite(t, a));
    }
  }

  lemma StepKeepsAlone(s: State, r: nat, step: Step)
    requires Alone(s, r) && CanStep(s, step)
    ensures r < |Next(s, step).runs| && (Ended(Next(s, step).runs[r].pc) || Alone(Next(s, step), r))
  {
    match step {
      case RunStep(q, up) => if q == r { OwnCallKeepsAlone(s, r, up); } else { OtherCallKeepsAlone(s, r, q, up); }
      case KillStep(k, up) => KillStepKeepsAlone(s, r, k, up);
      case _ =>
    }
  }

  lemma EndedStays(s: State, r: nat, step: Step)
    requires CanStep(s, step) && r < |s.runs| && Ended(s.runs[r].pc)
    ensures r < |Next(s, step).runs| && Ended(Next(s, step).runs[r].pc)
  {
    if step.KillStep? { KillStepIsSilent(s, step.k, step.up); }
  }

  /** A call that runs unrivalled keeps its token while it runs. */
  lemma {:induction false} KeepsTokenWhileRunning(s: State, r: nat, run: seq<Step>)
    requires Runs(s, run) && r < |s.runs| && (Alone(s, r) || Ended(s.runs[r].pc))
    ensures Kept(After(s, run), r)
    decreases |run|
  {
    if run == [] {
    } else {
      if Ended(s.runs[r].pc) { EndedStays(s, r, run[0]); } else { StepKeepsAlone(s, r, run[0]); }
      KeepsTokenWhileRunning(Next(s, run[0]), r, run[1..]);
    }
  }

  /** Call q can still evict the token of call r; a resume that has not read the row yet finds it resumable. */
  ghost predicate Rival(s: State, r: nat, q: nat) {
    && r < |s.runs| && q < |s.runs| && q != r && s.runs[q].agent == s.runs[r].agent
    && StillRunning(s.runs[r].pc) && Registered(s, r) && r !in s.fired
    && (var a := s.runs[r].agent;
        && a in s.rows
        && (Threatens(s.runs[q].pc, MayWrite(s, a)) || (s.runs[q].pc.GetRow? && Resumable(s.rows[a].status))))
  }

  /** How many statements a rival is away from the registry on its shortest way there. */
  function Distance(pc: Pc): nat {
    match pc
    case GetRow => 6
    case ResetTurns => 5
    case ReadStatus(_) => 4
    case WriteStatus(_) => 3
    case LoadMessages => 2
    case EmitSpawned => 3
    case Looping => 2
    case SetSummary(_) => 2
    case _ => 1
  }

  /** The next statement of the rival on that way: a finalization takes the failing branch. */
  function Closer(run: Run, q: nat): Step {
    match run.pc
    case Looping => EndLoop(q, LoopError)
    case SetSummary(_) => RunStep(q, false)
    case ReadStatus(target) => RunStep(q, target.Running?)
    case WriteStatus(target) => RunStep(q, target.Running?)
    case _ => RunStep(q, true)
  }

  /** Register or unregister by the rival throws the token out. */
  lemma RivalEvicts(s: State, r: nat, q: nat)
    requires Rival(s, r, q) && (s.runs[q].pc.Register? || s.runs[q].pc.Unregister?)
    ensures CanStep(s, RunStep(q, true)) && !Kept(Next(s, RunStep(q, true)), r)
  {
    var t := RunNext(s, q, true);
    assert t.runs[r] == s.runs[r] && t.fired == s.fired;
  }

  lemma RivalCloses(s: State, r: nat, q: nat)
    requires Rival(s, r, q) && !s.runs[q].pc.Register? && !s.runs[q].pc.Unregister?
    ensures var step := Closer(s.runs[q], q);
            CanStep(s, step) && Rival(Next(s, step), r, q)
                && Distance(Next(s, step).runs[q].pc) < Distance(s.runs[q].pc)
  {
    var run, step := s.runs[q], Closer(s.runs[q], q);
    if run.pc.Looping? {
      assert Next(s, step).runs[q].pc == Unregister(None);
    } else {
      SameCall(s, run, step.up);
      QuietEffect(s, q, run, step.up);
      RivalGoesOn(s, r, q);
    }
  }

  lemma RivalGoesOn(s: State, r: nat, q: nat)
    requires Rival(s, r, q) && !s.runs[q].pc.Register? && !s.runs[q].pc.Unregister? && !s.runs[q].pc.Looping?
    ensures var run := s.runs[q];
            var up := Closer(run, q).up;
            var t := Effect(s, q, run, up);
            && run.agent in t.rows
            && Distance(NextRun(s, run, up).pc) < Distance(run.pc)
            && Threatens(NextRun(s, run, up).pc, MayWrite(t, run.agent))
  {
  }

  lemma {:induction false} RivalWins(s: State, r: nat, q: nat) returns (run: seq<Step>)
    requires Rival(s, r, q)
    ensures Runs(s, run) && !Kept(After(s, run), r)
    decreases Distance(s.runs[q].pc)
  {
    var step := Closer(s.runs[q], q);
    if s.runs[q].pc.Register? || s.runs[q].pc.Unregister? {
      RivalEvicts(s, r, q);
      OneStep(s, step);
      run := [step];
    } else {
      RivalCloses(s, r, q);
      var rest := RivalWins(Next(s, step), r, q);
      run := [step] + rest;
      assert run[1..] == rest;
    }
  }

  /** A resume that starts now is a rival as long as the row can be resumed. */
  lemma NewResumeIsRival(s: State, r: nat)
    requires r < |s.runs| && StillRunning(s.runs[r].pc) && Registered(s, r) && r !in s.fired
    requires s.runs[r].agent in s.rows && Resumable(s.rows[s.runs[r].agent].status)
    ensures Rival(Next(s, BeginResume(s.runs[r].agent)), r, |s.runs|)
  {
  }

  lemma UnrivalledIsAlone(s: State, r: nat)
    requires r < |s.runs| && Registered(s, r) && StillRunning(s.runs[r].pc) && Unrivalled(s, r)
    ensures Alone(s, r)
  {
  }

  lemma SomeRivalWins(s: State, r: nat) returns (run: seq<Step>)
    requires RegistryInv(s) && r < |s.runs| && Registered(s, r) && StillRunning(s.runs[r].pc)
    requires s.runs[r].agent in s.rows && !Unrivalled(s, r)
    ensures Runs(s, run) && !Kept(After(s, run), r)
  {
    var a := s.runs[r].agent;
    assert TokenInv(s, r);
    if Resumable(s.rows[a].status) {
      NewResumeIsRival(s, r);
      var rest := RivalWins(Next(s, BeginResume(a)), r, |s.runs|);
      run := [BeginResume(a)] + rest;
      assert run[1..] == rest;
    } else {
      var q :| 0 <= q < |s.runs| && q != r && s.runs[q].agent == a && Threatens(s.runs[q].pc, MayWrite(s, a));
      run := RivalWins(s, r, q);
    }
  }

  /**
   A registered call that has not finished its finalization is registered or
   fired by a kill until then, in every continuation, if and only if its row
   cannot be resumed and no other call of the agent threatens the token.
   */
  lemma KeepsTokenIff(s: State, r: nat)
    requires RegistryInv(s) && r < |s.runs| && Registered(s, r) && StillRunning(s.runs[r].pc)
    requires s.runs[r].agent in s.rows
    ensures (forall run :: Runs(s, run) ==> Kept(After(s, run), r)) <==> Unrivalled(s, r)
  {
    hide Unrivalled, Kept, Alone, Runs, After, RegistryInv, Registered, StillRunning;
    if Unrivalled(s, r) {
      UnrivalledIsAlone(s, r);
      forall run | Runs(s, run) ensures Kept(After(s, run), r) {
        KeepsTokenWhileRunning(s, r, run);
      }
    } else {
      var run := SomeRivalWins(s, r);
    }
  }

  ghost predicate Reachable(s: State, t: State) { exists run :: Runs(s, run) && After(s, run) == t }

  lemma {:induction false} RunSnoc(s: State, run: seq<Step>, step: Step)
    requires Runs(s, run) && CanStep(After(s, run), step)
    ensures Runs(s, run + [step]) && After(s, run + [step]) == Next(After(s, run), step)
    decreases |run|
  {
    if run == [] {
      assert run + [step] == [step] && [step][1..] == [];
    } else {
      RunSnoc(Next(s, run[0]), run[1..], step);
      assert (run + [step])[1..] == run[1..] + [step];
    }
  }

  lemma ReachNext(s: State, t: State, step: Step)
    requires Reachable(s, t) && CanStep(t, step)
    ensures Reachable(s, Next(t, step))
  {
    var run :| Runs(s, run) && After(s, run) == t;
    RunSnoc(s, run, step);
  }

  // ---- Two reachable races ----

  function Call(pc: Pc): Run { Run("ag", false, pc, 0, false, false) }

  function Resumed(pc: Pc): Run { Run("ag", true, pc, 0, false, false) }

  function Spawning(white: Whitespace): State {
    State(white, map["ag" := Row(Running, None)], map["ag" := 0], {}, {}, [Call(Looping)], [], [EvSpawned(0)], [])
  }

  function Inserted(white: Whitespace): State {
    State(white, map["ag" := Row(Running, None)], map[], {}, {}, [Call(Register)], [], [], [])
  }

  lemma InsertReaches(white: Whitespace)
    ensures Reachable(Start(white), Inserted(white))
  {
    var s0 := Start(white);
    assert Runs(s0, []) && After(s0, []) == s0;
    var s1 := s0.(runs := [Call(InsertSession)]);
    assert Next(s0, BeginSpawn("ag")) == s1;
    ReachNext(s0, s0, BeginSpawn("ag"));
    var s2 := s0.(runs := [Call(InsertRow)]);
    assert Next(s1, RunStep(0, true)) == s2;
    ReachNext(s0, s1, RunStep(0, true));
    assert Next(s2, RunStep(0, true)) == Inserted(white);
    ReachNext(s0, s2, RunStep(0, true));
  }

  lemma SpawnReaches(white: Whitespace)
    ensures Reachable(Start(white), Spawning(white))
  {
    InsertReaches(white);
    var s0, s3 := Start(white), Inserted(white);
    var s4 := s3.(runs := [Call(EmitSpawned)], registry := map["ag" := 0]);
    assert Next(s3, RunStep(0, true)) == s4;
    ReachNext(s0, s3, RunStep(0, true));
    assert Next(s4, RunStep(0, true)) == Spawning(white);
    ReachNext(s0, s4, RunStep(0, true));
  }

  /** The loop answered and update_status(Idle) has read the running row. */
  function AboutToIdle(white: Whitespace): State { Spawning(white).(runs := [Call(WriteStatus(Idle))]) }

  lemma AnswerReaches(white: Whitespace)
    ensures Reachable(Start(white), AboutToIdle(white))
  {
    SpawnReaches(white);
    var s0, s1 := Start(white), Spawning(white);
    var s2 := s1.(runs := [Call(ReadStatus(Idle))]);
    assert Next(s1, EndLoop(0, Answered)) == s2;
    ReachNext(s0, s1, EndLoop(0, Answered));
    assert Next(s2, RunStep(0, true)) == AboutToIdle(white);
    ReachNext(s0, s2, RunStep(0, true));
  }

  /** A kill between the read and the write reports Killed, and the row ends Idle. */
  lemma KilledCanBeOverwritten(white: Whitespace) returns (t: State)
    ensures Reachable(Start(white), t)
    ensures t.kills == [Kill("ag", KillReturned(Some(Killed)), Some(0))]
    ensures t.rows == map["ag" := Row(Idle, None)]
  {
    AnswerReaches(white);
    var s0, s1 := Start(white), AboutToIdle(white);
    var s2 := s1.(kills := [Kill("ag", KillGet, None)]);
    assert Next(s1, BeginKill("ag")) == s2;
    ReachNext(s0, s1, BeginKill("ag"));
    var s3 := s1.(kills := [Kill("ag", KillCancel(Running), None)]);
    assert Next(s2, KillStep(0, true)) == s3;
    ReachNext(s0, s2, KillStep(0, true));
    var s4 := s1.(kills := [Kill("ag", KillRead, Some(0))], registry := map[], fired := {0});
    assert Next(s3, KillStep(0, true)) == s4;
    ReachNext(s0, s3, KillStep(0, true));
    var s5 := s4.(kills := [Kill("ag", KillWrite, Some(0))]);
    assert Next(s4, KillStep(0, true)) == s5;
    ReachNext(s0, s4, KillStep(0, true));
    var s6 := Next(s5, KillStep(0, true));
    assert s6.kills == [Kill("ag", KillReturned(Some(Killed)), Some(0))] && s6.runs == s5.runs;
    assert s6.rows == map["ag" := Row(Killed, None)];
    ReachNext(s0, s5, KillStep(0, true));
    t := Next(s6, RunStep(0, true));
    ReachNext(s0, s6, RunStep(0, true));
  }

  /** The first call has written Idle and has not yet unregistered. */
  function IdleEarly(white: Whitespace): State {
    Spawning(white).(runs := [Call(Unregister(Some(Idle)))], rows := map["ag" := Row(Idle, None)],
                     writes := [Write(ByRun(0), "ag", Row(Idle, None))])
  }

  /** A resume that starts in that gap and is about to register its own token. */
  function ResumedEarly(white: Whitespace): State {
    IdleEarly(white).(runs := [Call(Unregister(Some(Idle))), Resumed(Register)],
                      rows := map["ag" := Row(Running, None)],
                      writes := [Write(ByRun(0), "ag", Row(Idle, None)), Write(ByRun(1), "ag", Row(Running, None))])
  }

  lemma ResumeStarts(white: Whitespace) returns (t: State)
    ensures Reachable(Start(white), t)
    ensures t == IdleEarly(white).(runs := [Call(Unregister(Some(Idle))), Resumed(ReadStatus(Running))])
  {
    AnswerReaches(white);
    var s0, s1, first := Start(white), IdleEarly(white), Call(Unregister(Some(Idle)));
    assert Next(AboutToIdle(white), RunStep(0, true)) == s1;
    ReachNext(s0, AboutToIdle(white), RunStep(0, true));
    var s2 := s1.(runs := [first, Resumed(GetRow)]);
    assert Next(s1, BeginResume("ag")) == s2;
    ReachNext(s0, s1, BeginResume("ag"));
    var s3 := s1.(runs := [first, Resumed(ResetTurns)]);
    assert Next(s2, RunStep(1, true)) == s3;
    ReachNext(s0, s2, RunStep(1, true));
    t := s1.(runs := [first, Resumed(ReadStatus(Running))]);
    assert Next(s3, RunStep(1, true)) == t;
    ReachNext(s0, s3, RunStep(1, true));
  }

  lemma ResumeReaches(white: Whitespace)
    ensures Reachable(Start(white), ResumedEarly(white))
  {
    var s0, s1, first := Start(white), IdleEarly(white), Call(Unregister(Some(Idle)));
    var s4 := ResumeStarts(white);
    var s5 := s1.(runs := [first, Resumed(WriteStatus(Running))]);
    assert Next(s4, RunStep(1, true)) == s5;
    ReachNext(s0, s4, RunStep(1, true));
    var s6 := ResumedEarly(white).(runs := [first, Resumed(LoadMessages)]);
    assert Next(s5, RunStep(1, true)) == s6;
    ReachNext(s0, s5, RunStep(1, true));
    assert Next(s6, RunStep(1, true)) == ResumedEarly(white);
    ReachNext(s0, s6, RunStep(1, true));
  }

  /** The first call then throws the new token out: the resumed call runs on and no kill can reach it. */
  lemma FastResumeLosesItsToken(white: Whitespace) returns (t: State)
    ensures Reachable(Start(white), t)
    ensures |t.runs| == 2 && t.runs[1].pc.Looping? && t.lost == {0, 1} && t.registry == map[]
  {
    ResumeReaches(white);
    var s0, s1, first := Start(white), ResumedEarly(white), Call(Unregister(Some(Idle)));
    // The second registration finds the first call's token under the key, and the first call removes the second's.
    var s2 := s1.(runs := [first, Resumed(Looping)], registry := map["ag" := 1], lost := {0});
    assert Next(s1, RunStep(1, true)) == s2;
    ReachNext(s0, s1, RunStep(1, true));
    t := Next(s2, RunStep(0, true));
    ReachNext(s0, s2, RunStep(0, true));
  }

  // ---- The code ----

  /** The token map of ActiveSubagentRegistry; what fires or throws out a token is remembered for the proofs. */
  class ActiveSubagentRegistry {
    var tokens: map<Id, nat>
    var fired: set<nat>
    ghost var lost: set<nat>

    constructor ()
      ensures tokens == map[] && fired == {} && lost == {}
    {
      tokens, fired, lost := map[], {}, {};
    }

    /** An insert: a token already under the key is dropped unfired. */
    method RegisterToken(agent: Id, token: nat)
      modifies this
      ensures tokens == old(tokens)[agent := token] && fired == old(fired)
      ensures lost == old(lost) + if agent in old(tokens) then {old(tokens)[agent]} else {}
    {
      if agent in tokens { lost := lost + {tokens[agent]}; }
      tokens := tokens[agent := token];
    }

    /** Takes the token out and fires it; true exactly when there was one. */
    method Cancel(agent: Id) returns (wasActive: bool)
      modifies this
      ensures wasActive <==> agent in old(tokens)
      ensures tokens == old(tokens) - {agent} && lost == old(lost)
      ensures fired == old(fired) + if wasActive then {old(tokens)[agent]} else {}
    {
      wasActive := agent in tokens;
      if wasActive {
        fired := fired + {tokens[agent]};
        tokens := tokens - {agent};
      }
    }

    /** Removes whatever token is under the key, without firing it. */
    method UnregisterToken(agent: Id, token: nat)
      modifies this
      ensures tokens == old(tokens) - {agent} && fired == old(fired)
      ensures lost == old(lost) + ((if agent in old(tokens) then {old(tokens)[agent]} else {}) - {token})
    {
      if agent in tokens { lost := lost + ({tokens[agent]} - {token}); }
      tokens := tokens - {agent};
    }
  }

  class SubagentRuntime {
    const white: Whitespace
    const active: ActiveSubagentRegistry
    var rows: map<Id, Row>
    var runs: seq<Run>
    var kills: seq<Kill>
    var events: seq<Event>
    ghost var writes: seq<Write>

    constructor (white: Whitespace, active: ActiveSubagentRegistry)
      requires active.tokens == map[] && active.fired == {} && active.lost == {}
      ensures this.active == active && View() == Start(white)
    {
      this.white, this.active := white, active;
      rows, runs, kills, events, writes := map[], [], [], [], [];
    }

    ghost function View(): State
      reads this, active
    {
      State(white, rows, active.tokens, active.fired, active.lost, runs, kills, events, writes)
    }

    method BeginCall(agent: Id, resume: bool) returns (r: nat)
      modifies this
      ensures View() == Next(old(View()), if resume then BeginResume(agent) else BeginSpawn(agent))
      ensures r == |old(runs)|
    {
      r := |runs|;
      runs := runs + [Run(agent, resume, if resume then GetRow else InsertSession, 0, false, false)];
    }

    /** The read of update_status. */
    method MayUpdate(agent: Id, up: bool) returns (ok: bool)
      ensures ok <==> up && agent in rows && !Terminal(rows[agent].status)
    {
      ok := up && agent in rows && !Terminal(rows[agent].status);
    }

    /** The write of update_status. */
    method WriteRow(actor: Actor, agent: Id, status: Status)
      modifies this
      ensures View() == SetStatus(old(View()), actor, agent, status)
    {
      if agent in rows {
        rows := rows[agent := rows[agent].(status := status)];
        writes := writes + [Write(actor, agent, rows[agent])];
      }
    }

    /** Where a call goes after its next statement. */
    method Proceed(r: nat, up: bool) returns (run: Run)
      requires r < |runs|
      ensures run == NextRun(View(), runs[r], up)
    {
      run := runs[r];
      var a := run.agent;
      match run.pc {
        case InsertSession => run := run.(pc := if up then InsertRow else Abandoned);
        case InsertRow => run := run.(pc := if up && a !in rows then Register else Abandoned);
        case GetRow =>
          run := run.(pc := if up && a in rows && Resumable(rows[a].status) then ResetTurns else Abandoned);
        case ResetTurns => run := run.(pc := if up then ReadStatus(Running) else Abandoned);
        case ReadStatus(target) =>
          var ok := MayUpdate(a, up);
          run := if ok then run.(pc := WriteStatus(target)) else Refused(run, target);
        case WriteStatus(target) => run := if up then run.(pc := AfterWrite(target)) else Refused(run, target);
        case LoadMessages => run := run.(pc := if up then Register else Abandoned);
        case Register => run := run.(pc := if run.resumed then Looping else EmitSpawned);
        case EmitSpawned => run := run.(pc := Looping);
        case SetSummary(_) => run := if up then run.(pc := ReadStatus(StoppedTurn)) else Refused(run, StoppedTurn);
        case Unregister(result) => run := run.(pc := EmitResult(result));
        case EmitResult(result) => run := run.(pc := Returned(result));
        case _ =>
      }
    }

    /** What the statement does to the shared state. */
    method Perform(r: nat, up: bool)
      requires r < |runs|
      modifies this, active
      ensures View() == Effect(old(View()), r, old(runs)[r], up)
    {
      var run := runs[r];
      var a := run.agent;
      match run.pc {
        case InsertRow => if up && a !in rows { rows := rows[a := Row(Running, None)]; }
        case WriteStatus(target) => if up { WriteRow(ByRun(r), a, target); }
        case SetSummary(content) =>
          if up && a in rows { rows := rows[a := rows[a].(summary := Some(DerivePartialSummary(content, white)))]; }
        case Register => active.RegisterToken(a, r);
        case Unregister(_) => active.UnregisterToken(a, r);
        case EmitSpawned => events := events + [EvSpawned(r)];
        case EmitResult(result) => events := events + [ResultEvent(r, result)];
        case _ =>
      }
    }

    /** One statement of a spawn or resume call outside its loop. */
    method RunStatement(r: nat, up: bool)
      requires CanStep(View(), RunStep(r, up))
      modifies this, active
      ensures View() == Next(old(View()), RunStep(r, up))
    {
      var run := Proceed(r, up);
      Perform(r, up);
      runs := runs[r := run];
    }

    /** The callback of the loop: the counter goes up by one and is reported. */
    method Beat(r: nat)
      requires CanStep(View(), Heartbeat(r))
      modifies this
      ensures View() == Next(old(View()), Heartbeat(r))
    {
      var count := runs[r].iterations + 1;
      runs := runs[r := runs[r].(iterations := count)];
      events := events + [EvProgress(r, count)];
    }

    method LoopReturns(r: nat, loopResult: LoopResult)
      requires CanStep(View(), EndLoop(r, loopResult))
      modifies this
      ensures View() == Next(old(View()), EndLoop(r, loopResult))
    {
      match loopResult {
        case LoopError => runs := runs[r := runs[r].(pc := Unregister(None))];
        case Capped(content) => runs := runs[r := runs[r].(pc := SetSummary(content), capped := true)];
        case Answered => runs := runs[r := runs[r].(pc := ReadStatus(Idle))];
      }
    }

    /** update_status with nobody between its read and its write, and storage up. */
    method UpdateStatus(r: nat)
      requires r < |runs| && Settles(runs[r].pc) && runs[r].pc.ReadStatus?
      requires runs[r].agent in rows && !Terminal(rows[runs[r].agent].status)
      modifies this, active
      ensures events == old(events)
      ensures runs == old(runs)[r := old(runs)[r].(pc := AfterWrite(old(runs)[r].pc.target))]
      ensures var a := runs[r].agent; rows == old(rows)[a := old(rows)[a].(status := old(runs)[r].pc.target)]
    {
      RunStatement(r, true);
      RunStatement(r, true);
    }

    /** Unregister and emit. */
    method Report(r: nat)
      requires r < |runs| && runs[r].pc.Unregister?
      modifies this, active
      ensures rows == old(rows) && runs == old(runs)[r := old(runs)[r].(pc := Returned(old(runs)[r].pc.result))]
      ensures runs[r].agent !in active.tokens
      ensures events == old(events) + [ResultEvent(r, old(runs)[r].pc.result)]
    {
      RunStatement(r, true);
      RunStatement(r, true);
    }

    /**
     From the end of the loop to the return, with nobody in between and storage
     up: an answer leaves Idle and reports success; a cap hit leaves StoppedTurn
     with the partial summary and reports Cancelled; an error leaves the row alone.
     */
    method Finish(r: nat, loopResult: LoopResult)
      requires r < |runs| && runs[r].pc.Looping?
      requires runs[r].agent in rows && !Terminal(rows[runs[r].agent].status)
      modifies this, active
      ensures |runs| == |old(runs)| && runs[r].pc.Returned? && runs[r].agent == old(runs)[r].agent
      ensures runs[r].agent !in active.tokens
      ensures events == old(events) + [if loopResult.Answered? then EvCompleted(r, true) else EvCancelled(r)]
      ensures var a := runs[r].agent;
              rows == old(rows)[a :=
                match loopResult
                case Answered => old(rows)[a].(status := Idle)
                case Capped(content) => Row(StoppedTurn, Some(DerivePartialSummary(content, white)))
                case LoopError => old(rows)[a]]
    {
      LoopReturns(r, loopResult);
      if loopResult.Capped? { RunStatement(r, true); }
      if !loopResult.LoopError? { UpdateStatus(r); }
      Report(r);
    }

    /** A spawn up to its loop, undisturbed and with storage up: a running row, a token, and Spawned. */
    method Spawn(agent: Id) returns (r: nat)
      requires agent !in rows
      modifies this, active
      ensures r == |old(runs)| && runs == old(runs) + [Run(agent, false, Looping, 0, false, false)]
      ensures rows == old(rows)[agent := Row(Running, None)]
      ensures active.tokens == old(active.tokens)[agent := r] && active.fired == old(active.fired)
      ensures events == old(events) + [EvSpawned(r)]
    {
      r := BeginCall(agent, false);
      RunStatement(r, true);
      RunStatement(r, true);
      RunStatement(r, true);
      RunStatement(r, true);
    }

    /**
     A resume up to its loop, undisturbed and with storage up. It goes through
     exactly for a row that is Idle or StoppedTurn, and then the row runs again
     under a new token; otherwise the call ends and nothing has changed.
     */
    method Resume(agent: Id) returns (r: nat, ok: bool)
      modifies this, active
      ensures r == |old(runs)| && events == old(events) && active.fired == old(active.fired)
      ensures ok <==> agent in old(rows) && (old(rows)[agent].status == Idle || old(rows)[agent].status == StoppedTurn)
      ensures ok ==> runs == old(runs) + [Run(agent, true, Looping, 0, false, false)]
      ensures ok ==> rows == old(rows)[agent := old(rows)[agent].(status := Running)]
      ensures ok ==> active.tokens == old(active.tokens)[agent := r]
      ensures !ok ==> runs == old(runs) + [Run(agent, true, Abandoned, 0, false, false)]
      ensures !ok ==> rows == old(rows) && active.tokens == old(active.tokens)
    {
      r := BeginCall(agent, true);
      RunStatement(r, true);
      ok := runs[r].pc.ResetTurns?;
      if ok {
        MarkRunning(r);
        RunStatement(r, true);
        RunStatement(r, true);
      }
    }

    /** The counters are reset and the row is set to Running. */
    method MarkRunning(r: nat)
      requires r < |runs| && runs[r].pc.ResetTurns?
      requires runs[r].agent in rows && !Terminal(rows[runs[r].agent].status)
      modifies this, active
      ensures runs == old(runs)[r := old(runs)[r].(pc := LoadMessages)] && events == old(events)
      ensures var a := runs[r].agent; rows == old(rows)[a := old(rows)[a].(status := Running)]
      ensures active.tokens == old(active.tokens) && active.fired == old(active.fired)
    {
      RunStatement(r, true);
      RunStatement(r, true);
      RunStatement(r, true);
    }

    /**
     A kill, undisturbed and with storage up: it fires the token if there is one.
     A row that has Failed, Completed or been Killed keeps its status, which is
     reported; any other becomes Killed. Without a row there is an error.
     */
    method KillAgent(agent: Id) returns (status: Option<Status>)
      modifies this, active
      ensures runs == old(runs) && events == old(events)
      ensures agent !in old(rows) ==> status == None && rows == old(rows) && active.tokens == old(active.tokens)
      ensures agent in old(rows) ==>
                var was := old(rows)[agent];
                var over := was.status in {Failed, Completed, Killed};
                && status == Some(if over then was.status else Killed)
                && rows == old(rows)[agent := was.(status := status.value)]
                && active.tokens == old(active.tokens) - {agent}
                && active.fired == old(active.fired)
                     + if agent in old(active.tokens) then {old(active.tokens)[agent]} else {}
    {
      var k := BeginKillCall(agent);
      KillStatement(k, true);
      if kills[k].pc.KillReturned? { return None; }
      KillStatement(k, true);
      if kills[k].pc.KillRead? {
        KillStatement(k, true);
        KillStatement(k, true);
      }
      status := kills[k].pc.status;
    }

    method BeginKillCall(agent: Id) returns (k: nat)
      modifies this
      ensures View() == Next(old(View()), BeginKill(agent)) && k == |old(kills)|
    {
      k := |kills|;
      kills := kills + [Kill(agent, KillGet, None)];
    }

    /** One statement of a kill call. */
    method KillStatement(k: nat, up: bool)
      requires CanStep(View(), KillStep(k, up))
      modifies this, active
      ensures View() == Next(old(View()), KillStep(k, up))
    {
      var kill := kills[k];
      var a := kill.agent;
      match kill.pc {
        case KillGet =>
          kill := kill.(pc := if up && a in rows then KillCancel(rows[a].status) else KillReturned(None));
        case KillCancel(seen) =>
          var token := if a in active.tokens then Some(active.tokens[a]) else None;
          var wasActive := active.Cancel(a);
          if wasActive { kill := kill.(hit := token); }
          kill := kill.(pc := if Terminal(seen) then KillReturned(Some(seen)) else KillRead);
        case KillRead =>
          var ok := MayUpdate(a, up);
          kill := kill.(pc := if ok then KillWrite else KillReturned(None));
        case KillWrite =>
          if up {
            WriteRow(ByKill(k), a, Killed);
            kill := kill.(pc := KillReturned(Some(Killed)));
          } else {
            kill := kill.(pc := KillReturned(None));
          }
        case KillReturned(_) =>
      }
      kills := kills[k := kill];
    }
  }
}
