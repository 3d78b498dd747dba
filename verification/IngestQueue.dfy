/**
 Queued ingestion: a bounded channel that drops when full, and one consumer task
 that receives and ingests entries one at a time.
 */
module IngestQueue {
  import opened Basics
  import opened Ingestion

  /** An entry the consumer finished with, and whether storage was up for it. */
  datatype Attempt = Attempt(entry: Entry, up: bool)

  /** The channel, the entry in the consumer's hands, the log, and what has happened so far. */
  datatype State = State(
    queue: seq<Entry>,
    inFlight: Option<Entry>,
    log: seq<Entry>,
    offered: seq<Entry>,
    accepted: seq<Entry>,
    dropped: seq<Entry>,
    processed: seq<Attempt>)

  datatype Step = Offer(entry: Entry) | Receive | Finish(up: bool)

  ghost predicate CanStep(s: State, step: Step) {
    match step
    case Offer(_) => true
    case Receive => s.inFlight.None? && s.queue != []
    case Finish(_) => s.inFlight.Some?
  }

  ghost function Next(f: PrivacyFilter, buffer: nat, s: State, step: Step): State
    requires CanStep(s, step)
  {
    match step
    case Offer(e) =>
      if |s.queue| < buffer
      then s.(queue := s.queue + [e], offered := s.offered + [e], accepted := s.accepted + [e])
      else s.(offered := s.offered + [e], dropped := s.dropped + [e])
    case Receive =>
      s.(inFlight := Some(s.queue[0]), queue := s.queue[1..])
    case Finish(up) =>
      var e := s.inFlight.value;
      s.(inFlight := None, log := IngestOne(f, s.log, e, up), processed := s.processed + [Attempt(e, up)])
  }

  ghost function Start(log: seq<Entry>): State {
    State([], None, log, [], [], [], [])
  }

  ghost predicate Runs(f: PrivacyFilter, buffer: nat, s: State, run: seq<Step>)
    decreases |run|
  {
    run == [] || (CanStep(s, run[0]) && Runs(f, buffer, Next(f, buffer, s, run[0]), run[1..]))
  }

  ghost function After(f: PrivacyFilter, buffer: nat, s: State, run: seq<Step>): State
    requires Runs(f, buffer, s, run)
    decreases |run|
  {
    if run == [] then s else After(f, buffer, Next(f, buffer, s, run[0]), run[1..])
  }

  function Entries(processed: seq<Attempt>): seq<Entry> {
    seq(|processed|, i requires 0 <= i < |processed| => processed[i].entry)
  }

  function InHand(e: Option<Entry>): seq<Entry> {
    if e.Some? then [e.value] else []
  }

  /** The log that ingesting the attempts one after another produces. */
  function Replayed(f: PrivacyFilter, log: seq<Entry>, processed: seq<Attempt>): seq<Entry>
    decreases |processed|
  {
    if processed == [] then log
    else
      var n := |processed| - 1;
      IngestOne(f, Replayed(f, log, processed[..n]), processed[n].entry, processed[n].up)
  }

  /** `all` is an order-preserving interleaving of `xs` and `ys`. */
  ghost predicate Interleaves(all: seq<Entry>, xs: seq<Entry>, ys: seq<Entry>)
    decreases |all|
  {
    if all == [] then xs == [] && ys == []
    else
      var n := |all| - 1;
      || (xs != [] && xs[|xs| - 1] == all[n] && Interleaves(all[..n], xs[..|xs| - 1], ys))
      || (ys != [] && ys[|ys| - 1] == all[n] && Interleaves(all[..n], xs, ys[..|ys| - 1]))
  }

  ghost predicate Inv(f: PrivacyFilter, buffer: nat, log: seq<Entry>, s: State) {
    && s.accepted == Entries(s.processed) + InHand(s.inFlight) + s.queue
    && |s.queue| <= buffer
    && Interleaves(s.offered, s.accepted, s.dropped)
    && s.log == Replayed(f, log, s.processed)
  }

  lemma InterleavesSnoc(all: seq<Entry>, xs: seq<Entry>, ys: seq<Entry>, e: Entry)
    requires Interleaves(all, xs, ys)
    ensures Interleaves(all + [e], xs + [e], ys)
    ensures Interleaves(all + [e], xs, ys + [e])
  {
    assert (all + [e])[..|all|] == all && (xs + [e])[..|xs|] == xs && (ys + [e])[..|ys|] == ys;
  }

  lemma EntriesSnoc(processed: seq<Attempt>, a: Attempt)
    ensures Entries(processed + [a]) == Entries(processed) + [a.entry]
  {
  }

  lemma ReplayedSnoc(f: PrivacyFilter, log: seq<Entry>, processed: seq<Attempt>, a: Attempt)
    ensures Replayed(f, log, processed + [a]) == IngestOne(f, Replayed(f, log, processed), a.entry, a.up)
  {
    assert (processed + [a])[..|processed|] == processed;
  }

  /** Moving one entry along: done ++ hand ++ queue is unchanged by a receive and by a finish. */
  lemma Regroup(done: seq<Entry>, e: Entry, queue: seq<Entry>)
    ensures done + [] + ([e] + queue) == done + [e] + queue == (done + [e]) + [] + queue
  {
  }

  lemma OfferKeepsInv(f: PrivacyFilter, buffer: nat, log: seq<Entry>, s: State, e: Entry)
    requires Inv(f, buffer, log, s)
    ensures Inv(f, buffer, log, Next(f, buffer, s, Offer(e)))
  {
    InterleavesSnoc(s.offered, s.accepted, s.dropped, e);
    hide Interleaves, Entries, InHand, Replayed;
    var done, hand := Entries(s.processed), InHand(s.inFlight);
    calc {
      s.accepted + [e];
      (done + hand + s.queue) + [e];
      (done + hand) + (s.queue + [e]);
    }
  }

  lemma FinishKeepsInv(f: PrivacyFilter, buffer: nat, log: seq<Entry>, s: State, up: bool)
    requires Inv(f, buffer, log, s) && s.inFlight.Some?
    ensures Inv(f, buffer, log, Next(f, buffer, s, Finish(up)))
  {
    EntriesSnoc(s.processed, Attempt(s.inFlight.value, up));
    ReplayedSnoc(f, log, s.processed, Attempt(s.inFlight.value, up));
    Regroup(Entries(s.processed), s.inFlight.value, s.queue);
  }

  lemma StepKeepsInv(f: PrivacyFilter, buffer: nat, log: seq<Entry>, s: State, step: Step)
    requires Inv(f, buffer, log, s) && CanStep(s, step)
    ensures Inv(f, buffer, log, Next(f, buffer, s, step))
  {
    match step {
      case Offer(e) => OfferKeepsInv(f, buffer, log, s, e);
      case Receive =>
        assert s.queue == [s.queue[0]] + s.queue[1..];
        Regroup(Entries(s.processed), s.queue[0], s.queue[1..]);
      case Finish(up) => FinishKeepsInv(f, buffer, log, s, up);
    }
  }

  lemma {:induction false} RunKeepsInv(f: PrivacyFilter, buffer: nat, log: seq<Entry>, s: State, run: seq<Step>)
    requires Inv(f, buffer, log, s) && Runs(f, buffer, s, run)
    ensures Inv(f, buffer, log, After(f, buffer, s, run))
    decreases |run|
  {
    if run == [] {
    } else {
      StepKeepsInv(f, buffer, log, s, run[0]);
      RunKeepsInv(f, buffer, log, Next(f, buffer, s, run[0]), run[1..]);
    }
  }

  /**
   In every reachable state: entries leave in the order they were accepted, the
   channel never overfills, each offer was accepted or dropped in order, and the
   log is the one-by-one ingestion of what was processed; so a clean log stays
   clean. Once the consumer has caught up, everything accepted was processed.
   */
  lemma EveryReachableState(f: PrivacyFilter, buffer: nat, log: seq<Entry>, run: seq<Step>)
    requires Runs(f, buffer, Start(log), run)
    ensures var s := After(f, buffer, Start(log), run);
            && s.accepted == Entries(s.processed) + InHand(s.inFlight) + s.queue
            && |s.queue| <= buffer
            && Interleaves(s.offered, s.accepted, s.dropped)
            && s.log == Replayed(f, log, s.processed)
            && (CleanLog(f, log) ==> CleanLog(f, s.log))
            && (Backlog(s) == 0 ==> Entries(s.processed) == s.accepted)
  {
    RunKeepsInv(f, buffer, log, Start(log), run);
    var s := After(f, buffer, Start(log), run);
    if CleanLog(f, log) { ReplayedIsClean(f, log, s.processed); }
  }

  lemma {:induction false} ReplayedIsClean(f: PrivacyFilter, log: seq<Entry>, processed: seq<Attempt>)
    requires CleanLog(f, log)
    ensures CleanLog(f, Replayed(f, log, processed))
    decreases |processed|
  {
    if processed == [] {
    } else {
      var n := |processed| - 1;
      ReplayedIsClean(f, log, processed[..n]);
      IngestKeepsLogClean(f, Replayed(f, log, processed[..n]), processed[n].entry, processed[n].up);
    }
  }

  ghost function Backlog(s: State): nat { 2 * |s.queue| + |InHand(s.inFlight)| }

  /** The consumer is never stuck: with a backlog one of its steps is enabled, and each lowers the backlog. */
  lemma ConsumerDrains(f: PrivacyFilter, buffer: nat, s: State)
    ensures Backlog(s) > 0 <==> CanStep(s, Receive) || CanStep(s, Finish(true))
    ensures CanStep(s, Receive) ==> Backlog(Next(f, buffer, s, Receive)) == Backlog(s) - 1
    ensures forall up :: CanStep(s, Finish(up)) ==> Backlog(Next(f, buffer, s, Finish(up))) == Backlog(s) - 1
  {
  }

  // ---- Which offers are dropped ----

  /** How often the consumer has received, told from the steps alone. */
  function Receives(run: seq<Step>): nat {
    if run == [] then 0
    else Receives(run[..|run| - 1]) + if run[|run| - 1].Receive? then 1 else 0
  }

  lemma {:induction false} RunFront(f: PrivacyFilter, buffer: nat, s: State, run: seq<Step>)
    requires Runs(f, buffer, s, run) && run != []
    ensures var n := |run| - 1;
            && Runs(f, buffer, s, run[..n])
            && CanStep(After(f, buffer, s, run[..n]), run[n])
            && After(f, buffer, s, run) == Next(f, buffer, After(f, buffer, s, run[..n]), run[n])
    decreases |run|
  {
    var n := |run| - 1;
    if n == 0 {
      assert run[..0] == [] && run[1..] == [];
    } else {
      var t := Next(f, buffer, s, run[0]);
      RunFront(f, buffer, t, run[1..]);
      assert run[1..][..n - 1] == run[..n][1..] && run[..n][0] == run[0];
    }
  }

  /** What waits in the channel is what was accepted and not yet received. */
  lemma {:induction false} WaitingIsUnreceived(f: PrivacyFilter, buffer: nat, log: seq<Entry>, run: seq<Step>)
    requires Runs(f, buffer, Start(log), run)
    ensures var s := After(f, buffer, Start(log), run);
            |s.accepted| == Receives(run) + |s.queue| && |s.queue| <= buffer
    decreases |run|
  {
    if run == [] {
    } else {
      RunFront(f, buffer, Start(log), run);
      WaitingIsUnreceived(f, buffer, log, run[..|run| - 1]);
    }
  }

  /**
   After any run an offer is dropped exactly when `buffer` accepted entries are
   still unreceived, whatever the consumer has in its hands; otherwise it is
   accepted. Nothing else happens to the offers.
   */
  lemma DroppedIff(f: PrivacyFilter, buffer: nat, log: seq<Entry>, run: seq<Step>, e: Entry)
    requires Runs(f, buffer, Start(log), run)
    ensures var s := After(f, buffer, Start(log), run);
            var t := Next(f, buffer, s, Offer(e));
            && t.offered == s.offered + [e]
            && |s.accepted| - Receives(run) <= buffer
            && (t.dropped == s.dropped + [e] <==> |s.accepted| - Receives(run) == buffer)
            && (t.accepted == s.accepted + [e] <==> |s.accepted| - Receives(run) < buffer)
            && (t.dropped == s.dropped || t.accepted == s.accepted)
  {
    WaitingIsUnreceived(f, buffer, log, run);
  }

  /** At each offer of the run fewer than `buffer` accepted entries are unreceived. */
  ghost predicate AlwaysRoom(f: PrivacyFilter, buffer: nat, log: seq<Entry>, run: seq<Step>)
    requires Runs(f, buffer, Start(log), run)
    decreases |run|
  {
    run == [] ||
    (RunFront(f, buffer, Start(log), run);
     var front := run[..|run| - 1];
     && AlwaysRoom(f, buffer, log, front)
     && (run[|run| - 1].Offer? ==> |After(f, buffer, Start(log), front).accepted| - Receives(front) < buffer))
  }

  /** A run drops nothing exactly when there was always room. */
  lemma {:induction false} NothingDroppedIff(f: PrivacyFilter, buffer: nat, log: seq<Entry>, run: seq<Step>)
    requires Runs(f, buffer, Start(log), run)
    ensures After(f, buffer, Start(log), run).dropped == [] <==> AlwaysRoom(f, buffer, log, run)
    decreases |run|
  {
    if run == [] {
    } else {
      var front := run[..|run| - 1];
      RunFront(f, buffer, Start(log), run);
      NothingDroppedIff(f, buffer, log, front);
      if run[|run| - 1].Offer? { DroppedIff(f, buffer, log, front, run[|run| - 1].entry); }
    }
  }

  class BatchIngestionService {
    const service: ActivityIngestionService
    const buffer: nat
    var queue: seq<Entry>
    var inFlight: Option<Entry>
    ghost var offered: seq<Entry>
    ghost var accepted: seq<Entry>
    ghost var dropped: seq<Entry>
    ghost var processed: seq<Attempt>

    /** The channel needs room for at least one entry. */
    constructor (service: ActivityIngestionService, buffer: nat)
      requires buffer > 0
      ensures this.service == service && this.buffer == buffer
      ensures View() == Start(service.log)
    {
      this.service, this.buffer := service, buffer;
      queue, inFlight := [], None;
      offered, accepted, dropped, processed := [], [], [], [];
    }

    ghost function View(): State
      reads this, service
    {
      State(queue, inFlight, service.log, offered, accepted, dropped, processed)
    }

    /** try_send: never waits; a full channel drops the entry. */
    method IngestNonblocking(e: Entry)
      modifies this
      ensures View() == Next(service.filter, buffer, old(View()), Offer(e))
      ensures |old(queue)| < buffer ==>
                queue == old(queue) + [e] && accepted == old(accepted) + [e] && dropped == old(dropped)
      ensures |old(queue)| >= buffer ==>
                queue == old(queue) && accepted == old(accepted) && dropped == old(dropped) + [e]
      ensures offered == old(offered) + [e] && inFlight == old(inFlight) && processed == old(processed)
    {
      offered := offered + [e];
      if |queue| < buffer {
        queue := queue + [e];
        accepted := accepted + [e];
      } else {
        dropped := dropped + [e];
      }
    }

    /** The consumer's recv. */
    method TakeNext()
      requires inFlight.None? && queue != []
      modifies this
      ensures View() == Next(service.filter, buffer, old(View()), Receive)
    {
      inFlight, queue := Some(queue[0]), queue[1..];
    }

    /** The consumer's ingest; a failure is logged and the loop goes on. */
    method IngestTaken(up: bool)
      requires inFlight.Some?
      modifies this, service
      ensures View() == Next(service.filter, buffer, old(View()), Finish(up))
    {
      var r := service.Ingest(inFlight.value, up);
      processed := processed + [Attempt(inFlight.value, up)];
      inFlight := None;
    }

    /** The consumer task from a backlog until the channel is empty, storage up or not for each entry. */
    method Drain()
      modifies this, service
      ensures queue == [] && inFlight.None?
      ensures offered == old(offered) && accepted == old(accepted) && dropped == old(dropped)
      ensures forall log :: Inv(service.filter, buffer, log, old(View())) ==> Inv(service.filter, buffer, log, View())
    {
      while inFlight.Some? || queue != []
        invariant offered == old(offered) && accepted == old(accepted) && dropped == old(dropped)
        invariant forall log :: Inv(service.filter, buffer, log, old(View())) ==>
                  Inv(service.filter, buffer, log, View())
        decreases Backlog(View())
      {
        ghost var before := View();
        if inFlight.None? {
          TakeNext();
          forall log | Inv(service.filter, buffer, log, before) ensures Inv(service.filter, buffer, log, View()) {
            StepKeepsInv(service.filter, buffer, log, before, Receive);
          }
        } else {
          var up := *;
          IngestTaken(up);
          forall log | Inv(service.filter, buffer, log, before) ensures Inv(service.filter, buffer, log, View()) {
            StepKeepsInv(service.filter, buffer, log, before, Finish(up));
          }
        }
      }
    }
  }
}
