/** What holds of relay cycles over whole runs: who may publish a row, and how often it can reach the topic. */
module SagaRelay {
  import opened Payments
  import opened Ledger
  import opened SagaMachine
  import opened SagaInvariant
  import opened SagaGuarantees

  /** Relays hold disjoint batches, of rows that are still PENDING. */
  lemma LockedBatchesDisjoint(w: World, r: string, s: string, e: string)
    requires Reachable(w) && r in w.relays && s in w.relays
    requires e in BatchOf(w.relays[r].phase)
    ensures e in w.outbox && w.outbox[e].status == Pending
    ensures e in BatchOf(w.relays[s].phase) ==> r == s
  {
    ReachableSound(w);
    assert RelaySound(w.outbox, w.events, w.relays[r]);
  }

  // --------------------------------------------------- published only if acked

  /** Action `a` begins or ends a cycle of relay `r`. */
  predicate Bounds(a: Action, r: string) {
    a.RelayStep? && a.relay == r && (a.relayAction.Lock? || a.relayAction.CommitCycle? || a.relayAction.Rollback?)
  }

  predicate Locks(a: Action, r: string, e: string) {
    a.RelayStep? && a.relay == r && a.relayAction.Lock? && e in a.relayAction.batch
  }

  /** The broker's acknowledgement of the message relay `r` produced for `e` in its cycle `c`. */
  predicate Acks(a: Action, r: string, e: string, c: nat) {
    a == RelayStep(r, Report(Ticket(c, e), true))
  }

  /** How many cycles relay `r` has begun. */
  function Cycles(run: seq<Action>, r: string): nat {
    if run == [] then 0
    else
      var last := run[|run| - 1];
      Cycles(run[..|run| - 1], r) + if last.RelayStep? && last.relay == r && last.relayAction.Lock? then 1 else 0
  }

  lemma CyclesGrow(run: seq<Action>, a: Action, r: string)
    ensures Cycles(run + [a], r) ==
            Cycles(run, r) + if a.RelayStep? && a.relay == r && a.relayAction.Lock? then 1 else 0
  {
    assert (run + [a])[..|run|] == run;
  }

  /** From action `i` on, relay `r` has been inside the one cycle in which it locked `e`. */
  ghost predicate InCycleSince(run: seq<Action>, r: string, i: nat, e: string) {
    && i < |run| && Locks(run[i], r, e)
    && forall m :: i < m < |run| ==> !Bounds(run[m], r)
  }

  /** Within its present cycle, relay `r` locked `e` and then saw the message of that very cycle acknowledged. */
  ghost predicate AckedInCycle(run: seq<Action>, r: string, e: string) {
    exists i: nat, j: nat :: InCycleSince(run, r, i, e) && i < j < |run| && Acks(run[j], r, e, Cycles(run, r))
  }

  ghost predicate LockedInCycle(run: seq<Action>, r: string, e: string) {
    exists i: nat :: InCycleSince(run, r, i, e)
  }

  /** Some prefix of the run had `e` acknowledged in a cycle that the next action commits. */
  ghost predicate CommittedAfterAck(run: seq<Action>, e: string) {
    exists k, r :: 0 <= k < |run| && run[k] == RelayStep(r, CommitCycle) && AckedInCycle(run[..k], r, e)
  }

  /** The history each relay's state stands for. */
  ghost predicate Explained(w: World, run: seq<Action>) {
    && LocksExplained(w.relays, run)
    && AcksExplained(w.relays, run)
    && PublishedExplained(w.outbox, run)
    && CyclesExplained(w.relays, run)
  }

  ghost predicate CyclesExplained(relays: map<string, Relay>, run: seq<Action>) {
    forall r :: (if r in relays then relays[r].cycle else 0) == Cycles(run, r)
  }

  ghost predicate LocksExplained(relays: map<string, Relay>, run: seq<Action>) {
    forall r, e :: r in relays && e in BatchOf(relays[r].phase) ==> LockedInCycle(run, r, e)
  }

  ghost predicate AcksExplained(relays: map<string, Relay>, run: seq<Action>) {
    forall r, e :: r in relays && e in DeliveredOf(relays[r].phase) ==> AckedInCycle(run, r, e)
  }

  ghost predicate PublishedExplained(outbox: map<string, OutboxRow>, run: seq<Action>) {
    forall e :: e in outbox && outbox[e].status == Published ==> CommittedAfterAck(run, e)
  }

  lemma LockedExtends(run: seq<Action>, a: Action, r: string, e: string)
    requires LockedInCycle(run, r, e) && !Bounds(a, r)
    ensures LockedInCycle(run + [a], r, e)
  {
    var i: nat :| InCycleSince(run, r, i, e);
    assert InCycleSince(run + [a], r, i, e);
  }

  lemma AckedExtends(run: seq<Action>, a: Action, r: string, e: string)
    requires AckedInCycle(run, r, e) && !Bounds(a, r)
    ensures AckedInCycle(run + [a], r, e)
  {
    var i: nat, j: nat :| InCycleSince(run, r, i, e) && i < j < |run| && Acks(run[j], r, e, Cycles(run, r));
    CyclesGrow(run, a, r);
    assert InCycleSince(run + [a], r, i, e) && Acks((run + [a])[j], r, e, Cycles(run + [a], r));
  }

  lemma AckedNow(run: seq<Action>, a: Action, r: string, e: string)
    requires LockedInCycle(run, r, e) && Acks(a, r, e, Cycles(run, r))
    ensures AckedInCycle(run + [a], r, e)
  {
    var i: nat :| InCycleSince(run, r, i, e);
    CyclesGrow(run, a, r);
    assert InCycleSince(run + [a], r, i, e) && Acks((run + [a])[|run|], r, e, Cycles(run + [a], r));
  }

  lemma CommittedExtends(run: seq<Action>, a: Action, e: string)
    requires CommittedAfterAck(run, e)
    ensures CommittedAfterAck(run + [a], e)
  {
    var k, r :| 0 <= k < |run| && run[k] == RelayStep(r, CommitCycle) && AckedInCycle(run[..k], r, e);
    assert (run + [a])[..k] == run[..k] && (run + [a])[k] == run[k];
  }

  lemma LockedNow(run: seq<Action>, a: Action, r: string, e: string)
    requires Locks(a, r, e)
    ensures LockedInCycle(run + [a], r, e)
  {
    assert InCycleSince(run + [a], r, |run|, e);
  }

  lemma CommittedNow(run: seq<Action>, r: string, e: string)
    requires AckedInCycle(run, r, e)
    ensures CommittedAfterAck(run + [RelayStep(r, CommitCycle)], e)
  {
    var run' := run + [RelayStep(r, CommitCycle)];
    assert run'[..|run|] == run && run'[|run|] == RelayStep(r, CommitCycle);
  }

  /** How a relay's own step changes what it holds. */
  lemma RelayMovesWithin(outbox: map<string, OutboxRow>, relays: map<string, Relay>, events: seq<PaymentEvent>,
                         relay: Relay, a: RelayAction)
    requires RelaySound(outbox, events, relay) && RelayEnabled(outbox, relays, relay, a)
    ensures var relay' := RelayNext(outbox, relays, relay, a);
      && (forall e :: e in BatchOf(relay'.phase) ==>
            if a.Lock? then e in a.batch else e in BatchOf(relay.phase) && !a.CommitCycle? && !a.Rollback?)
      && (forall e :: e in DeliveredOf(relay'.phase) ==>
            && e in BatchOf(relay.phase) && !a.Lock? && !a.CommitCycle? && !a.Rollback?
            && (e in DeliveredOf(relay.phase) || a == Report(Ticket(relay.cycle, e), true)))
      && relay'.cycle == relay.cycle + (if a.Lock? then 1 else 0)
  {
    assert forall e :: e in ProducedOf(relay.phase) ==> e in BatchOf(relay.phase);
    if a.Report? && a.ok && relay.phase.Cycle? && a.ticket.cycle == relay.cycle {
      assert a.ticket.row in ProducedOf(relay.phase);
    }
  }

  lemma RelayStepLocks(w: World, run: seq<Action>, r: string, a: RelayAction, relay': Relay)
    requires LocksExplained(w.relays, run)
    requires forall e :: e in BatchOf(relay'.phase) ==>
      if a.Lock? then e in a.batch else e in BatchOf(RelayOf(w, r).phase) && !a.CommitCycle? && !a.Rollback?
    ensures LocksExplained(w.relays[r := relay'], run + [RelayStep(r, a)])
  {
    var relays', run' := w.relays[r := relay'], run + [RelayStep(r, a)];
    hide LockedInCycle;
    forall s, e | s in relays' && e in BatchOf(relays'[s].phase) ensures LockedInCycle(run', s, e) {
      if s == r && a.Lock? {
        LockedNow(run, RelayStep(r, a), r, e);
      } else {
        LockedExtends(run, RelayStep(r, a), s, e);
      }
    }
  }

  lemma RelayStepAcks(w: World, run: seq<Action>, r: string, a: RelayAction, relay': Relay)
    requires LocksExplained(w.relays, run) && AcksExplained(w.relays, run) && CyclesExplained(w.relays, run)
    requires forall e :: e in DeliveredOf(relay'.phase) ==>
      && e in BatchOf(RelayOf(w, r).phase) && !a.Lock? && !a.CommitCycle? && !a.Rollback?
      && (e in DeliveredOf(RelayOf(w, r).phase) || a == Report(Ticket(RelayOf(w, r).cycle, e), true))
    ensures AcksExplained(w.relays[r := relay'], run + [RelayStep(r, a)])
  {
    var relays', run' := w.relays[r := relay'], run + [RelayStep(r, a)];
    assert RelayOf(w, r).cycle == Cycles(run, r);
    hide LockedInCycle, AckedInCycle, CyclesExplained;
    forall s, e | s in relays' && e in DeliveredOf(relays'[s].phase) ensures AckedInCycle(run', s, e) {
      if s == r && e !in DeliveredOf(RelayOf(w, r).phase) {
        AckedNow(run, RelayStep(r, a), r, e);
      } else {
        AckedExtends(run, RelayStep(r, a), s, e);
      }
    }
  }

  lemma RelayStepCycles(w: World, run: seq<Action>, r: string, a: RelayAction, relay': Relay)
    requires CyclesExplained(w.relays, run) && relay'.cycle == RelayOf(w, r).cycle + (if a.Lock? then 1 else 0)
    ensures CyclesExplained(w.relays[r := relay'], run + [RelayStep(r, a)])
  {
    var relays' := w.relays[r := relay'];
    forall s ensures (if s in relays' then relays'[s].cycle else 0) == Cycles(run + [RelayStep(r, a)], s) {
      CyclesGrow(run, RelayStep(r, a), s);
    }
  }

  lemma RelayStepPublishes(w: World, run: seq<Action>, r: string, a: RelayAction)
    requires AcksExplained(w.relays, run) && PublishedExplained(w.outbox, run)
    ensures PublishedExplained(OutboxAfter(w.outbox, RelayOf(w, r), a), run + [RelayStep(r, a)])
  {
    var outbox', run' := OutboxAfter(w.outbox, RelayOf(w, r), a), run + [RelayStep(r, a)];
    hide AckedInCycle, CommittedAfterAck;
    forall e | e in outbox' && outbox'[e].status == Published ensures CommittedAfterAck(run', e) {
      if w.outbox[e].status == Published {
        CommittedExtends(run, RelayStep(r, a), e);
      } else {
        CommittedNow(run, r, e);
      }
    }
  }

  lemma RelayStepExplained(w: World, run: seq<Action>, r: string, a: RelayAction)
    requires Inv(w) && Explained(w, run) && Enabled(w, RelayStep(r, a))
    ensures Explained(Next(w, RelayStep(r, a)), run + [RelayStep(r, a)])
  {
    var relay := RelayOf(w, r);
    assert RelaySound(w.outbox, w.events, relay);
    RelayMovesWithin(w.outbox, w.relays, w.events, relay, a);
    hide Inv, RelayEnabled, RelayNext, RelaySound, OutboxAfter, EventsAfter;
    hide LocksExplained, AcksExplained, PublishedExplained, CyclesExplained;
    RelayStepLocks(w, run, r, a, RelayNext(w.outbox, w.relays, relay, a));
    RelayStepAcks(w, run, r, a, RelayNext(w.outbox, w.relays, relay, a));
    RelayStepCycles(w, run, r, a, RelayNext(w.outbox, w.relays, relay, a));
    RelayStepPublishes(w, run, r, a);
  }

  lemma OtherStepExplained(w: World, run: seq<Action>, a: Action)
    requires Explained(w, run) && Enabled(w, a) && !a.RelayStep?
    requires Next(w, a).relays == w.relays
    requires forall e :: e in Next(w, a).outbox && Next(w, a).outbox[e].status == Published ==>
      e in w.outbox && w.outbox[e].status == Published
    ensures Explained(Next(w, a), run + [a])
  {
    var w', run' := Next(w, a), run + [a];
    hide Enabled, Next, LockedInCycle, AckedInCycle, CommittedAfterAck;
    forall s, e | s in w.relays && e in BatchOf(w.relays[s].phase) ensures LockedInCycle(run', s, e) {
      LockedExtends(run, a, s, e);
    }
    forall s, e | s in w.relays && e in DeliveredOf(w.relays[s].phase) ensures AckedInCycle(run', s, e) {
      AckedExtends(run, a, s, e);
    }
    forall e | e in w'.outbox && w'.outbox[e].status == Published ensures CommittedAfterAck(run', e) {
      CommittedExtends(run, a, e);
    }
    forall s ensures Cycles(run', s) == Cycles(run, s) {
      CyclesGrow(run, a, s);
    }
  }

  /** Only relay steps touch the relays or publish a row. */
  lemma OthersLeaveRelays(w: World, a: Action)
    requires Enabled(w, a) && !a.RelayStep?
    ensures Next(w, a).relays == w.relays
    ensures forall e :: e in Next(w, a).outbox && Next(w, a).outbox[e].status == Published ==>
      e in w.outbox && w.outbox[e].status == Published
    ensures Next(w, a).events == w.events
  {
    match a
    case Authorize(_, _) =>
    case Capture(_, _, _, _) =>
    case PosterStep(k, b) => hide Next, Enabled; PosterStepFrame(w, k, b);
    case SagaStep(k, b) => hide Next, Enabled; SagaStepFrame(w, k, b);
  }

  lemma {:induction false} RunExplained(run: seq<Action>)
    requires IsRun(Init, run)
    ensures Explained(Exec(Init, run), run)
    decreases |run|
  {
    if run == [] {
    } else {
      hide Inv, Enabled, Next, Explained;
      var n := |run| - 1;
      RunSplitLast(Init, run);
      RunExplained(run[..n]);
      InitSound();
      RunKeeps(Init, run[..n]);
      var w, a := Exec(Init, run[..n]), run[n];
      assert run == run[..n] + [a];
      if a.RelayStep? {
        RelayStepExplained(w, run[..n], a.relay, a.relayAction);
      } else {
        OthersLeaveRelays(w, a);
        OtherStepExplained(w, run[..n], a);
      }
    }
  }

  /** A row is PUBLISHED only if the broker acknowledged it in the very cycle that locked it and then committed. */
  lemma PublishedOnlyIfAcked(run: seq<Action>, e: string)
    requires IsRun(Init, run)
    requires e in Exec(Init, run).outbox && Exec(Init, run).outbox[e].status == Published
    ensures CommittedAfterAck(run, e)
  {
    RunExplained(run);
  }

  /** A rolled-back cycle leaves every row as it was; those it had locked stay PENDING and can be claimed again. */
  lemma RollbackLeavesPending(w: World, r: string, e: string)
    requires Reachable(w) && Enabled(w, RelayStep(r, Rollback)) && e in BatchOf(RelayOf(w, r).phase)
    ensures var w' := Next(w, RelayStep(r, Rollback));
            && w'.outbox == w.outbox
            && Claimable(w'.outbox, w'.relays, e)
  {
    ReachableSound(w);
    HeldByOne(w, r, e);
    RollbackRests(w, r);
    hide Inv, Reachable, Claimable, Next, Enabled;
    FreedByRollback(w.outbox, w.relays, r, e);
  }

  lemma RollbackRests(w: World, r: string)
    requires Enabled(w, RelayStep(r, Rollback)) && r in w.relays
    ensures Next(w, RelayStep(r, Rollback)) == w.(relays := w.relays[r := w.relays[r].(phase := Resting)])
  {
    hide IsOldestBatch, Publish, EventOf;
    var w' := Next(w, RelayStep(r, Rollback));
    assert w'.outbox == w.outbox && w'.events == w.events;
    assert w'.relays == w.relays[r := w.relays[r].(phase := Resting)];
  }

  lemma FreedByRollback(outbox: map<string, OutboxRow>, relays: map<string, Relay>, r: string, e: string)
    requires r in relays && e in outbox && outbox[e].status == Pending
    requires forall s :: s in relays && s != r ==> e !in BatchOf(relays[s].phase)
    ensures Claimable(outbox, relays[r := relays[r].(phase := Resting)], e)
  {
    var relays' := relays[r := relays[r].(phase := Resting)];
    forall s | s in relays' ensures e !in BatchOf(relays'[s].phase) {
      assert s == r || relays'[s] == relays[s];
    }
  }

  /** A row in a relay's batch is PENDING and in no other relay's. */
  lemma HeldByOne(w: World, r: string, e: string)
    requires Inv(w) && e in BatchOf(RelayOf(w, r).phase)
    ensures r in w.relays && e in w.outbox && w.outbox[e].status == Pending
    ensures forall s :: s in w.relays && s != r ==> e !in BatchOf(w.relays[s].phase)
  {
    hide PaymentsSound, EventsSound, BooksSound, OutcomesSound, PostersSound, CompensatorsSound;
    assert RelaySound(w.outbox, w.events, w.relays[r]);
    assert DisjointBatches(w.relays);
  }

  // --------------------------------------------------------- at most once without faults

  ghost predicate Logged(events: seq<PaymentEvent>, e: string) {
    exists i :: 0 <= i < |events| && events[i].eventId == e
  }

  ghost predicate NoRepeats(events: seq<PaymentEvent>) {
    forall i, j :: 0 <= i < |events| && 0 <= j < |events| && events[i].eventId == events[j].eventId ==> i == j
  }

  /** Neither a cycle that ends without committing nor a message written but reported as failed. */
  ghost predicate FaultFree(w: World, a: Action) {
    a.RelayStep? ==>
      && !a.relayAction.Rollback?
      && (a.relayAction.Report? && !a.relayAction.ok ==> a.relayAction.ticket in RelayOf(w, a.relay).queued)
  }

  ghost predicate FaultFreeRun(w: World, run: seq<Action>)
    requires IsRun(w, run)
    decreases |run|
  {
    run == [] || (FaultFree(w, run[0]) && FaultFreeRun(Next(w, run[0]), run[1..]))
  }

  /** Tickets belong to the running cycle, and what is still to be written is not in the log yet. */
  ghost predicate RelayTidy(events: seq<PaymentEvent>, relay: Relay) {
    && (!relay.phase.Cycle? ==> relay.queued == {} && relay.written == {})
    && (forall t :: t in relay.queued || t in relay.written ==> t.cycle == relay.cycle)
    && (forall t :: t in relay.queued ==> !Logged(events, t.row))
    && (relay.phase.Cycle? && relay.phase.next <= |relay.phase.batch| ==>
          forall m :: relay.phase.next <= m < |relay.phase.batch| ==> !Logged(events, relay.phase.batch[m]))
  }

  /** The relay is answerable for the row's message being in the log although the row is PENDING. */
  predicate Accounts(relay: Relay, e: string) {
    e in DeliveredOf(relay.phase) || Ticket(relay.cycle, e) in relay.written
  }

  ghost predicate PendingAccounted(outbox: map<string, OutboxRow>, events: seq<PaymentEvent>,
                                   relays: map<string, Relay>) {
    forall e :: e in outbox && outbox[e].status == Pending && Logged(events, e) ==>
      exists r :: r in relays && Accounts(relays[r], e)
  }

  ghost predicate Tidy(w: World) {
    && NoRepeats(w.events)
    && (forall r :: r in w.relays ==> RelayTidy(w.events, w.relays[r]))
    && PendingAccounted(w.outbox, w.events, w.relays)
  }

  /** An accounted row is in the batch of the relay that accounts for it. */
  lemma AccountedIsLocked(outbox: map<string, OutboxRow>, events: seq<PaymentEvent>, relay: Relay, e: string)
    requires RelaySound(outbox, events, relay) && RelayTidy(events, relay) && Accounts(relay, e)
    ensures e in BatchOf(relay.phase) && e in ProducedOf(relay.phase)
  {
    if Ticket(relay.cycle, e) in relay.written {
      assert Ticket(relay.cycle, e).row in ProducedOf(relay.phase);
    }
  }

  lemma LockTidy(w: World, r: string, batch: seq<string>, limit: nat)
    requires Inv(w) && Tidy(w) && Enabled(w, RelayStep(r, Lock(batch, limit)))
    ensures RelayTidy(w.events, RelayNext(w.outbox, w.relays, RelayOf(w, r), Lock(batch, limit)))
  {
    forall m | 0 <= m < |batch| ensures !Logged(w.events, batch[m]) {
      var e := batch[m];
      assert Claimable(w.outbox, w.relays, e);
      if Logged(w.events, e) {
        var s :| s in w.relays && Accounts(w.relays[s], e);
        AccountedIsLocked(w.outbox, w.events, w.relays[s], e);
        assert false;
      }
    }
  }

  lemma ProduceTidy(outbox: map<string, OutboxRow>, events: seq<PaymentEvent>, relays: map<string, Relay>, relay: Relay)
    requires RelayTidy(events, relay) && RelayEnabled(outbox, relays, relay, Produce)
    ensures RelayTidy(events, RelayNext(outbox, relays, relay, Produce))
  {
  }

  /** A write adds exactly its own row's event to the log. */
  lemma WriteLogs(outbox: map<string, OutboxRow>, events: seq<PaymentEvent>, t: Ticket, e: string)
    requires t.row in outbox
    ensures Logged(EventsAfter(outbox, events, Write(t)), e) <==> Logged(events, e) || e == t.row
  {
    var events' := EventsAfter(outbox, events, Write(t));
    assert events'[|events|].eventId == t.row;
    if Logged(events, e) {
      var i :| 0 <= i < |events| && events[i].eventId == e;
      assert events'[i].eventId == e;
    }
  }

  /** The writer itself: its other tickets and the rest of its batch are other rows. */
  lemma WriteTidy(outbox: map<string, OutboxRow>, events: seq<PaymentEvent>, relays: map<string, Relay>, relay: Relay,
                  t: Ticket)
    requires RelaySound(outbox, events, relay) && RelayTidy(events, relay)
    requires RelayEnabled(outbox, relays, relay, Write(t))
    ensures RelayTidy(EventsAfter(outbox, events, Write(t)), RelayNext(outbox, relays, relay, Write(t)))
  {
    var events' := EventsAfter(outbox, events, Write(t));
    var relay' := RelayNext(outbox, relays, relay, Write(t));
    forall u | u in relay'.queued ensures !Logged(events', u.row) {
      WriteLogs(outbox, events, t, u.row);
      assert u == Ticket(u.cycle, u.row) && t == Ticket(t.cycle, t.row);
    }
    assert t.row in ProducedOf(relay.phase);
    forall m | relay.phase.next <= m < |relay.phase.batch| ensures !Logged(events', relay.phase.batch[m]) {
      WriteLogs(outbox, events, t, relay.phase.batch[m]);
    }
  }

  /** A relay that did not write: the row written is in someone else's batch. */
  lemma OtherTidy(outbox: map<string, OutboxRow>, events: seq<PaymentEvent>, relay: Relay, t: Ticket)
    requires RelaySound(outbox, events, relay) && RelayTidy(events, relay)
    requires t.row in outbox && t.row !in BatchOf(relay.phase)
    ensures RelayTidy(EventsAfter(outbox, events, Write(t)), relay)
  {
    var events' := EventsAfter(outbox, events, Write(t));
    forall u | u in relay.queued ensures !Logged(events', u.row) {
      WriteLogs(outbox, events, t, u.row);
      assert u.row in ProducedOf(relay.phase);
      assert u.row in BatchOf(relay.phase);
    }
    if relay.phase.Cycle? {
      forall m | relay.phase.next <= m < |relay.phase.batch| ensures !Logged(events', relay.phase.batch[m]) {
        WriteLogs(outbox, events, t, relay.phase.batch[m]);
        assert relay.phase.batch[m] in BatchOf(relay.phase);
      }
    }
  }

  lemma ReportTidy(outbox: map<string, OutboxRow>, events: seq<PaymentEvent>, relays: map<string, Relay>, relay: Relay,
                   t: Ticket, ok: bool)
    requires RelaySound(outbox, events, relay) && RelayTidy(events, relay)
    requires RelayEnabled(outbox, relays, relay, Report(t, ok))
    ensures RelayTidy(events, RelayNext(outbox, relays, relay, Report(t, ok)))
    ensures ok || t in relay.queued ==>
      forall e :: Accounts(relay, e) ==> Accounts(RelayNext(outbox, relays, relay, Report(t, ok)), e)
  {
    var relay' := RelayNext(outbox, relays, relay, Report(t, ok));
    assert relay.phase.Cycle? && t.cycle == relay.cycle;
    forall e | Accounts(relay, e) && (ok || t in relay.queued) ensures Accounts(relay', e) {
      if Ticket(relay.cycle, e) == t {
        assert t.row == e;
        if ok { assert DeliveredOf(relay'.phase)[|relay.phase.delivered|] == e; }
      } else if e in DeliveredOf(relay.phase) {
        PrefixIn(DeliveredOf(relay.phase), DeliveredOf(relay'.phase), e);
      }
    }
  }

  lemma RelaysTidyAfterWrite(outbox: map<string, OutboxRow>, events: seq<PaymentEvent>, relays: map<string, Relay>,
                             r: string, t: Ticket)
    requires r in relays && RelayEnabled(outbox, relays, relays[r], Write(t)) && DisjointBatches(relays)
    requires forall s :: s in relays ==> RelaySound(outbox, events, relays[s]) && RelayTidy(events, relays[s])
    ensures var relays', events' := relays[r := RelayNext(outbox, relays, relays[r], Write(t))],
      EventsAfter(outbox, events, Write(t));
            forall s :: s in relays' ==> RelayTidy(events', relays'[s])
    ensures t.cycle == relays[r].cycle && !Logged(events, t.row)
  {
    assert RelaySound(outbox, events, relays[r]) && RelayTidy(events, relays[r]);
    assert t.row in ProducedOf(relays[r].phase);
    assert t.row in BatchOf(relays[r].phase);
    WriteTidy(outbox, events, relays, relays[r], t);
    hide RelayTidy, RelaySound;
    forall s | s in relays && s != r ensures RelayTidy(EventsAfter(outbox, events, Write(t)), relays[s]) {
      OtherTidy(outbox, events, relays[s], t);
    }
  }

  lemma WriteRelaysTidy(w: World, r: string, t: Ticket)
    requires Inv(w) && Tidy(w) && Enabled(w, RelayStep(r, Write(t)))
    ensures var w' := Next(w, RelayStep(r, Write(t)));
            forall s :: s in w'.relays ==> RelayTidy(w'.events, w'.relays[s])
    ensures t.cycle == RelayOf(w, r).cycle && !Logged(w.events, t.row)
  {
    hide RelayTidy, RelaySound, DisjointBatches;
    RelaysTidyAfterWrite(w.outbox, w.events, w.relays, r, t);
  }

  lemma WriteStepTidy(w: World, r: string, t: Ticket)
    requires Inv(w) && Tidy(w) && Enabled(w, RelayStep(r, Write(t)))
    ensures Tidy(Next(w, RelayStep(r, Write(t))))
  {
    hide Inv, RelayTidy;
    var relay := RelayOf(w, r);
    var w' := Next(w, RelayStep(r, Write(t)));
    WriteRelaysTidy(w, r, t);
    WriteNoRepeats(w.outbox, w.events, t);
    forall e | e in w'.outbox && w'.outbox[e].status == Pending && Logged(w'.events, e)
      ensures exists s :: s in w'.relays && Accounts(w'.relays[s], e)
    {
      WriteLogs(w.outbox, w.events, t, e);
      if e == t.row {
        assert t == Ticket(relay.cycle, e);
        assert Accounts(w'.relays[r], e);
      } else {
        var s :| s in w.relays && Accounts(w.relays[s], e);
        assert Accounts(w'.relays[s], e);
      }
    }
  }

  lemma WriteNoRepeats(outbox: map<string, OutboxRow>, events: seq<PaymentEvent>, t: Ticket)
    requires NoRepeats(events) && t.row in outbox && !Logged(events, t.row)
    ensures NoRepeats(EventsAfter(outbox, events, Write(t)))
  {
  }

  lemma SilentRelayTidy(w: World, r: string, a: RelayAction)
    requires Inv(w) && Tidy(w) && Enabled(w, RelayStep(r, a)) && FaultFree(w, RelayStep(r, a)) && !a.Write?
    ensures RelayTidy(w.events, RelayNext(w.outbox, w.relays, RelayOf(w, r), a))
  {
    var relay := RelayOf(w, r);
    assert RelaySound(w.outbox, w.events, relay) && RelayTidy(w.events, relay);
    match a {
      case Lock(batch, limit) => LockTidy(w, r, batch, limit);
      case Produce => ProduceTidy(w.outbox, w.events, w.relays, relay);
      case Report(t, ok) => ReportTidy(w.outbox, w.events, w.relays, relay, t, ok);
      case Mark =>
      case CommitCycle =>
    }
  }

  /** What a relay accounts for it goes on accounting for, until the row is PUBLISHED. */
  lemma SilentAccounts(w: World, r: string, a: RelayAction, e: string)
    requires Inv(w) && Tidy(w) && Enabled(w, RelayStep(r, a)) && FaultFree(w, RelayStep(r, a)) && !a.Write?
    requires Accounts(RelayOf(w, r), e)
    ensures var outbox' := OutboxAfter(w.outbox, RelayOf(w, r), a);
            || Accounts(RelayNext(w.outbox, w.relays, RelayOf(w, r), a), e)
            || (e in outbox' ==> outbox'[e].status == Published)
  {
    var relay := RelayOf(w, r);
    assert RelaySound(w.outbox, w.events, relay) && RelayTidy(w.events, relay);
    if a.Report? {
      ReportTidy(w.outbox, w.events, w.relays, relay, a.ticket, a.ok);
    }
    hide Inv, RelaySound, IsOldestBatch;
  }

  /** Steps of a relay that write nothing: its accounts carry over, or its rows become PUBLISHED. */
  lemma SilentStepTidy(w: World, r: string, a: RelayAction)
    requires Inv(w) && Tidy(w) && Enabled(w, RelayStep(r, a)) && FaultFree(w, RelayStep(r, a)) && !a.Write?
    ensures Tidy(Next(w, RelayStep(r, a)))
  {
    hide Inv, RelayTidy, RelayNext, RelayEnabled, OutboxAfter, FaultFree, Accounts, Logged;
    SilentRelayTidy(w, r, a);
    forall e | Accounts(RelayOf(w, r), e)
      ensures var outbox' := OutboxAfter(w.outbox, RelayOf(w, r), a);
              || Accounts(RelayNext(w.outbox, w.relays, RelayOf(w, r), a), e)
              || (e in outbox' ==> outbox'[e].status == Published)
    {
      SilentAccounts(w, r, a, e);
    }
    AccountsCarry(w, r, a, RelayNext(w.outbox, w.relays, RelayOf(w, r), a));
  }

  lemma AccountsCarry(w: World, r: string, a: RelayAction, relay': Relay)
    requires PendingAccounted(w.outbox, w.events, w.relays)
    requires var outbox' := OutboxAfter(w.outbox, RelayOf(w, r), a);
      forall e :: Accounts(RelayOf(w, r), e) ==>
        Accounts(relay', e) || (e in outbox' ==> outbox'[e].status == Published)
    ensures PendingAccounted(OutboxAfter(w.outbox, RelayOf(w, r), a), w.events, w.relays[r := relay'])
  {
    var outbox', relays' := OutboxAfter(w.outbox, RelayOf(w, r), a), w.relays[r := relay'];
    hide Accounts, Logged;
    forall e | e in outbox' && outbox'[e].status == Pending && Logged(w.events, e)
      ensures exists s :: s in relays' && Accounts(relays'[s], e)
    {
      assert e in w.outbox && w.outbox[e].status == Pending;
      var s :| s in w.relays && Accounts(w.relays[s], e);
      assert Accounts(relays'[s], e);
    }
  }

  lemma CaptureTidy(w: World, tenant: string, pid: string, eventId: string, at: nat)
    requires Inv(w) && Tidy(w) && Enabled(w, Capture(tenant, pid, eventId, at))
    ensures Tidy(Next(w, Capture(tenant, pid, eventId, at)))
  {
    var w' := Next(w, Capture(tenant, pid, eventId, at));
    CaptureAddsRow(w, tenant, pid, eventId, at);
    hide Next, Enabled;
    forall e | e in w'.outbox && w'.outbox[e].status == Pending && Logged(w.events, e)
      ensures exists s :: s in w'.relays && Accounts(w'.relays[s], e)
    {
      var i :| 0 <= i < |w.events| && w.events[i].eventId == e;
      assert EventSound(w.outbox, w.events[i]);
    }
  }

  lemma CaptureAddsRow(w: World, tenant: string, pid: string, eventId: string, at: nat)
    requires Enabled(w, Capture(tenant, pid, eventId, at))
    ensures var w' := Next(w, Capture(tenant, pid, eventId, at));
      && w'.events == w.events && w'.relays == w.relays
      && forall e :: e in w.outbox ==> e in w'.outbox && w'.outbox[e] == w.outbox[e]
  {
  }

  lemma StepTidy(w: World, a: Action)
    requires Inv(w) && Tidy(w) && Enabled(w, a) && FaultFree(w, a)
    ensures Tidy(Next(w, a))
  {
    hide Inv, Next, Enabled, RelayTidy;
    match a
    case RelayStep(r, b) => if b.Write? { WriteStepTidy(w, r, b.ticket); } else { SilentStepTidy(w, r, b); }
    case Capture(tenant, pid, eventId, at) => CaptureTidy(w, tenant, pid, eventId, at);
    case Authorize(_, _) => AuthorizeFrame(w, a);
    case PosterStep(k, b) => PosterStepFrame(w, k, b);
    case SagaStep(k, b) => SagaStepFrame(w, k, b);
  }

  lemma AuthorizeFrame(w: World, a: Action)
    requires Enabled(w, a) && a.Authorize?
    ensures Next(w, a).outbox == w.outbox && Next(w, a).events == w.events && Next(w, a).relays == w.relays
  {
  }

  lemma {:induction false} RunTidy(w: World, run: seq<Action>)
    requires Inv(w) && Tidy(w) && IsRun(w, run) && FaultFreeRun(w, run)
    ensures Tidy(Exec(w, run))
    decreases |run|
  {
    hide Inv, Next, Enabled, Tidy, FaultFree;
    if run != [] {
      StepTidy(w, run[0]);
      StepKeeps(w, run[0]);
      RunTidy(Next(w, run[0]), run[1..]);
    }
  }

  /** A run with no rollback and no written-but-unacknowledged message puts each row in the topic at most once. */
  lemma PublishedAtMostOnce(run: seq<Action>)
    requires IsRun(Init, run) && FaultFreeRun(Init, run)
    ensures NoRepeats(Exec(Init, run).events)
  {
    InitSound();
    assert Tidy(Init);
    RunTidy(Init, run);
  }
}
