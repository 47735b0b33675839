/**
 Where the guarantees stop. Each lemma starts from an arbitrary state in which the fault can
 strike and gives the run in which it does, so the conditions under which a guarantee was proved
 cannot be dropped.
 */
module SagaWitnesses {
  import opened Payments
  import opened Ledger
  import opened SagaMachine
  import opened SagaRuns

  lemma TakePoll(w: World, k: string, pos: nat) returns (w': World)
    requires PosterOf(w, k) == Idle(pos) && pos < |w.events|
    ensures Reaches(w, w') && PosterOf(w', k) == Busy(pos, Decoding)
    ensures w' == w.(posters := w'.posters)
  {
    ReachesSelf(w);
    ReachesStep(w, w, PosterStep(k, Poll));
    w' := Next(w, PosterStep(k, Poll));
  }

  /**
   The ledger consumer commits past a message it could not read whether or not the broker got the
   dead-letter write: the event is lost exactly when it did not.
   */
  lemma LostWriteLosesEvent(w: World, k: string, pos: nat, parks: bool) returns (w': World)
    requires PosterOf(w, k) == Idle(pos) && pos == w.eventsCommitted < |w.events|
    requires OutcomeFor(w.events[pos]) !in w.outcomes && w.events[pos] !in w.eventsDlq
    ensures Reaches(w, w') && w'.events == w.events && pos < w'.eventsCommitted && w'.books == w.books
    ensures OutcomeFor(w.events[pos]) !in w'.outcomes
    ensures w.events[pos] in w'.eventsDlq <==> parks
  {
    hide Reaches, IsPosted, OutcomeFor, Supported, InsertBlocked;
    var w1 := TakePoll(w, k, pos);
    var w2 := PosterGoes(w, w1, k, pos, Decoding, Decode(false));
    w' := ParksAndMovesOn(w, w2, k, pos, parks);
  }

  lemma ParksAndMovesOn(w0: World, w: World, k: string, pos: nat, parks: bool) returns (w': World)
    requires Reaches(w0, w) && PosterOf(w, k) == Busy(pos, Parking) && pos < |w.events|
    ensures Reaches(w0, w') && w'.events == w.events && w'.books == w.books && w'.outcomes == w.outcomes
    ensures PosterOf(w', k) == Idle(pos + 1) && w'.eventsCommitted == pos + 1
    ensures w'.eventsDlq == w.eventsDlq + if parks then [w.events[pos]] else []
  {
    hide Reaches, IsPosted;
    var w1 := PosterGoes(w0, w, k, pos, Parking, Park(parks));
    w' := PosterGoes(w0, w1, k, pos, Parked, CommitParked);
  }

  /** One sub-step that leaves books and outcomes alone. */
  lemma PosterGoes(w0: World, w: World, k: string, pos: nat, phase: Poster, h: PostAction) returns (w': World)
    requires Reaches(w0, w) && PosterOf(w, k) == Busy(pos, phase) && pos < |w.events|
    requires PostEnabled(w.events[pos], phase, h) && !h.Insert? && !h.CommitPosting? && !h.Emit?
    ensures Reaches(w0, w') && w'.events == w.events && w'.books == w.books && w'.outcomes == w.outcomes
    ensures PosterOf(w', k) == PostNext(pos, w.events[pos], IsPosted(w.books.entries, w.events[pos].eventId), phase, h)
    ensures w'.eventsCommitted == (if h.CommitOffset? || h.CommitParked? then pos + 1 else w.eventsCommitted)
    ensures w'.eventsDlq == w.eventsDlq + if h == Park(true) then [w.events[pos]] else []
  {
    PosterDoes(w, k, h);
    w' := Next(w, PosterStep(k, Handle(h)));
    hide Enabled, Next, InsertBlocked, IsPosted, PostNext;
    ReachesStep(w0, w, PosterStep(k, Handle(h)));
  }

  /** One sub-step of the saga consumer that compensates nothing. */
  lemma CompensatorGoes(w0: World, w: World, s: string, pos: nat, phase: Compensator, h: SagaAction) returns (w': World)
    requires Reaches(w0, w) && CompensatorOf(w, s) == Busy(pos, phase) && pos < |w.outcomes|
    requires SagaEnabled(phase, h) && !h.Compensate?
    ensures Reaches(w0, w') && w'.outcomes == w.outcomes && w'.payments == w.payments && w'.books == w.books
    ensures CompensatorOf(w', s) == SagaNext(pos, phase, h)
    ensures w'.outcomesCommitted == (if h.Acknowledge? || h.AcknowledgeDiverted? then pos + 1 else w.outcomesCommitted)
    ensures w'.outcomesDlq == w.outcomesDlq + if h == Divert(true) then [w.outcomes[pos]] else []
  {
    CompensatorDoes(w, s, h);
    w' := Next(w, SagaMachine.SagaStep(s, Handle(h)));
    assert w'.books == w.books;
    hide Enabled, Next, SagaNext;
    ReachesStep(w0, w, SagaMachine.SagaStep(s, Handle(h)));
  }

  lemma TakeOutcome(w: World, s: string, pos: nat) returns (w': World)
    requires CompensatorOf(w, s) == Idle(pos) && pos < |w.outcomes|
    ensures Reaches(w, w') && CompensatorOf(w', s) == Busy(pos, Reading)
    ensures w' == w.(compensators := w'.compensators)
  {
    ReachesSelf(w);
    ReachesStep(w, w, SagaMachine.SagaStep(s, Poll));
    w' := Next(w, SagaMachine.SagaStep(s, Poll));
  }

  /**
   The saga consumer likewise. A REJECTED outcome it could not read leaves the payment as it is,
   CAPTURED and unbooked, with the offset past it: the rejection is lost exactly when the
   dead-letter write was.
   */
  lemma LostWriteLosesRejection(w: World, s: string, pos: nat, parks: bool) returns (w': World)
    requires CompensatorOf(w, s) == Idle(pos) && pos == w.outcomesCommitted < |w.outcomes|
    requires w.outcomes[pos].status == Rejected && w.outcomes[pos] !in w.outcomesDlq
    ensures Reaches(w, w') && w'.outcomes == w.outcomes && pos < w'.outcomesCommitted
    ensures w'.payments == w.payments && w'.books == w.books
    ensures w.outcomes[pos] in w'.outcomesDlq <==> parks
  {
    var w1 := TakeOutcome(w, s, pos);
    hide Reaches;
    var w2 := CompensatorGoes(w, w1, s, pos, Reading, Interpret(false));
    var w3 := CompensatorGoes(w, w2, s, pos, Diverting, Divert(parks));
    w' := CompensatorGoes(w, w3, s, pos, Diverted, AcknowledgeDiverted);
  }

  /** The commit sits inside the `try`: when it raises, an event that was answered is dead-lettered as well. */
  lemma AnsweredAndParked(w: World, k: string, pos: nat) returns (w': World)
    requires PosterOf(w, k) == Busy(pos, Confirming) && pos < |w.events| && OutcomeFor(w.events[pos]) in w.outcomes
    ensures Reaches(w, w') && PosterOf(w', k) == Idle(pos + 1)
    ensures OutcomeFor(w.events[pos]) in w'.outcomes && w.events[pos] in w'.eventsDlq
  {
    ReachesSelf(w);
    hide Reaches, IsPosted, OutcomeFor;
    var w1 := PosterGoes(w, w, k, pos, Confirming, CommitRefused);
    w' := ParksAndMovesOn(w, w1, k, pos, true);
    assert w'.eventsDlq[|w.eventsDlq|] == w.events[pos];
  }

  /** One relay's phase aside, what may be claimed depends on who holds which batch only. */
  lemma SameClaims(outbox: map<string, OutboxRow>, relays: map<string, Relay>, r: string, relay: Relay,
                   batch: seq<string>, limit: nat)
    requires IsOldestBatch(outbox, relays, batch, limit) && relay.phase.Resting?
    requires r in relays ==> relays[r].phase.Resting?
    ensures IsOldestBatch(outbox, relays[r := relay], batch, limit)
  {
    forall e ensures Locked(relays, e) <==> Locked(relays[r := relay], e) {
      if s :| s in relays && e in BatchOf(relays[s].phase) {
        assert s in relays[r := relay] && relays[r := relay][s] == relays[s];
      }
    }
    assert forall e :: Claimable(outbox, relays, e) <==> Claimable(outbox, relays[r := relay], e);
  }

  /** Lock a batch and produce its first row. */
  lemma LockThenProduce(w0: World, w: World, r: string, c: nat, written: set<Ticket>, events: seq<PaymentEvent>,
                        batch: seq<string>, limit: nat)
    requires r in w.relays ==> w.relays[r].phase.Resting?
    requires IsOldestBatch(w.outbox, w.relays, batch, limit) && w.outbox[batch[0]].eventType == PAYMENT_CAPTURED
    requires Reaches(w0, WithRelay(w, r, Relay(c, Resting, {}, written), w.outbox, events))
    ensures var t := Ticket(c + 1, batch[0]);
      batch[0] in w.outbox &&
        Reaches(w0, WithRelay(w, r, Relay(c + 1, Cycle(batch, 1, []), {t}, written), w.outbox, events))
  {
    var t := Ticket(c + 1, batch[0]);
    var none: set<Ticket> := {};
    var resting := Relay(c, Resting, {}, written);
    var locked := Relay(c + 1, Cycle(batch, 0, []), {}, written);
    assert none + {t} == {t};
    SameClaims(w.outbox, w.relays, r, resting, batch, limit);
    assert Claimable(w.outbox, w.relays, batch[0]);
    hide IsOldestBatch, Claimable, Reaches;
    RelayMove(w, r, resting, w.outbox, events, Lock(batch, limit));
    RelayMove(w, r, locked, w.outbox, events, Produce);
    hide Enabled, Next, WithRelay;
    ReachesStep(w0, WithRelay(w, r, resting, w.outbox, events), RelayStep(r, Lock(batch, limit)));
    ReachesStep(w0, WithRelay(w, r, locked, w.outbox, events), RelayStep(r, Produce));
  }

  /** Have the broker write the produced row. */
  lemma BrokerWrites(w0: World, w: World, r: string, phase: RelayPhase, t: Ticket, written: set<Ticket>,
                     events: seq<PaymentEvent>)
    requires t.row in w.outbox
    requires Reaches(w0, WithRelay(w, r, Relay(t.cycle, phase, {t}, written), w.outbox, events))
    ensures Reaches(w0, WithRelay(w, r, Relay(t.cycle, phase, {}, written + {t}), w.outbox,
                                  events + [EventOf(t.row, w.outbox[t.row])]))
  {
    var none: set<Ticket> := {};
    var me := Relay(t.cycle, phase, {t}, written);
    assert {t} - {t} == none;
    RelayMove(w, r, me, w.outbox, events, Write(t));
    hide Enabled, Next, WithRelay, Reaches;
    ReachesStep(w0, WithRelay(w, r, me, w.outbox, events), RelayStep(r, Write(t)));
  }

  /** Lock a batch, produce its first row and have the broker write it; then the cycle is rolled back. */
  lemma WriteThenRollBack(w0: World, w: World, r: string, c: nat, written: set<Ticket>, events: seq<PaymentEvent>,
                          batch: seq<string>, limit: nat) returns (written': set<Ticket>)
    requires r in w.relays ==> w.relays[r].phase.Resting?
    requires IsOldestBatch(w.outbox, w.relays, batch, limit) && w.outbox[batch[0]].eventType == PAYMENT_CAPTURED
    requires Reaches(w0, WithRelay(w, r, Relay(c, Resting, {}, written), w.outbox, events))
    ensures var more := events + [EventOf(batch[0], w.outbox[batch[0]])];
      Reaches(w0, WithRelay(w, r, Relay(c + 1, Resting, {}, written'), w.outbox, more))
  {
    var t := Ticket(c + 1, batch[0]);
    var more := events + [EventOf(batch[0], w.outbox[batch[0]])];
    hide Reaches;
    LockThenProduce(w0, w, r, c, written, events, batch, limit);
    hide IsOldestBatch;
    BrokerWrites(w0, w, r, Cycle(batch, 1, []), t, written, events);
    written' := written + {t};
    var sent := Relay(c + 1, Cycle(batch, 1, []), {}, written');
    RelayMove(w, r, sent, w.outbox, more, Rollback);
    hide Enabled, Next, WithRelay;
    ReachesStep(w0, WithRelay(w, r, sent, w.outbox, more), RelayStep(r, Rollback));
  }

  /** The other fault: the message is written, but the callback reports a failure. */
  lemma WriteThenFailReport(w0: World, w: World, r: string, c: nat, events: seq<PaymentEvent>, batch: seq<string>,
                            limit: nat)
    requires r in w.relays ==> w.relays[r].phase.Resting?
    requires IsOldestBatch(w.outbox, w.relays, batch, limit) && |batch| == 1
    requires w.outbox[batch[0]].eventType == PAYMENT_CAPTURED
    requires Reaches(w0, WithRelay(w, r, Relay(c, Resting, {}, {}), w.outbox, events))
    ensures var more := events + [EventOf(batch[0], w.outbox[batch[0]])];
      Reaches(w0, WithRelay(w, r, Relay(c + 1, Resting, {}, {}), w.outbox, more))
  {
    var t := Ticket(c + 1, batch[0]);
    var none: set<Ticket> := {};
    var more := events + [EventOf(batch[0], w.outbox[batch[0]])];
    hide Reaches;
    LockThenProduce(w0, w, r, c, none, events, batch, limit);
    hide IsOldestBatch;
    BrokerWrites(w0, w, r, Cycle(batch, 1, []), t, none, events);
    assert none + {t} == {t};
    CommitsUnreported(w0, w, r, batch, t, more);
  }

  /** An error report for a written message, after which the cycle marks nothing and commits. */
  lemma CommitsUnreported(w0: World, w: World, r: string, batch: seq<string>, t: Ticket, events: seq<PaymentEvent>)
    requires |batch| == 1
    requires Reaches(w0, WithRelay(w, r, Relay(t.cycle, Cycle(batch, 1, []), {}, {t}), w.outbox, events))
    ensures Reaches(w0, WithRelay(w, r, Relay(t.cycle, Resting, {}, {}), w.outbox, events))
  {
    var none: set<Ticket> := {};
    assert {t} - {t} == none && none - {t} == none && none + none == none;
    var sent, told := Relay(t.cycle, Cycle(batch, 1, []), {}, {t}), Relay(t.cycle, Cycle(batch, 1, []), {}, {});
    var marked := Relay(t.cycle, Marked(batch, []), {}, {});
    hide Reaches;
    RelayMove(w, r, sent, w.outbox, events, Report(t, false));
    RelayMove(w, r, told, w.outbox, events, Mark);
    RelayMove(w, r, marked, w.outbox, events, CommitCycle);
    assert Publish(w.outbox, []) == w.outbox;
    hide Enabled, Next, WithRelay, Publish;
    ReachesStep(w0, WithRelay(w, r, sent, w.outbox, events), RelayStep(r, Report(t, false)));
    ReachesStep(w0, WithRelay(w, r, told, w.outbox, events), RelayStep(r, Mark));
    ReachesStep(w0, WithRelay(w, r, marked, w.outbox, events), RelayStep(r, CommitCycle));
  }

  /** Two cycles that commit after a written message was reported as failed do the same, without any rollback. */
  lemma FailedReportDuplicates(w: World, r: string, batch: seq<string>, limit: nat) returns (w': World)
    requires r in w.relays && w.relays[r].phase == Resting && w.relays[r].queued == {} && w.relays[r].written == {}
    requires IsOldestBatch(w.outbox, w.relays, batch, limit) && |batch| == 1
    requires w.outbox[batch[0]].eventType == PAYMENT_CAPTURED
    ensures Reaches(w, w') && w'.outbox == w.outbox
    ensures var ev := EventOf(batch[0], w.outbox[batch[0]]); w'.events == w.events + [ev, ev]
  {
    var me := w.relays[r];
    var ev := EventOf(batch[0], w.outbox[batch[0]]);
    assert w.relays[r := me] == w.relays;
    assert WithRelay(w, r, Relay(me.cycle, Resting, {}, {}), w.outbox, w.events) == w;
    ReachesSelf(w);
    hide IsOldestBatch, Reaches;
    WriteThenFailReport(w, w, r, me.cycle, w.events, batch, limit);
    WriteThenFailReport(w, w, r, me.cycle + 1, w.events + [ev], batch, limit);
    w' := WithRelay(w, r, Relay(me.cycle + 2, Resting, {}, {}), w.outbox, w.events + [ev] + [ev]);
    assert w.events + [ev] + [ev] == w.events + [ev, ev];
  }

  /** Two cycles that are each rolled back after the broker's write put one row's event in the topic twice. */
  lemma RollbackDuplicates(w: World, r: string, batch: seq<string>, limit: nat) returns (w': World)
    requires r in w.relays && w.relays[r].phase == Resting && w.relays[r].queued == {}
    requires IsOldestBatch(w.outbox, w.relays, batch, limit) && w.outbox[batch[0]].eventType == PAYMENT_CAPTURED
    ensures Reaches(w, w') && w'.outbox == w.outbox
    ensures var ev := EventOf(batch[0], w.outbox[batch[0]]); w'.events == w.events + [ev, ev]
  {
    var me := w.relays[r];
    var ev := EventOf(batch[0], w.outbox[batch[0]]);
    assert w.relays[r := me] == w.relays;
    assert WithRelay(w, r, Relay(me.cycle, Resting, {}, me.written), w.outbox, w.events) == w;
    ReachesSelf(w);
    hide IsOldestBatch, Reaches;
    var once := WriteThenRollBack(w, w, r, me.cycle, me.written, w.events, batch, limit);
    var twice := WriteThenRollBack(w, w, r, me.cycle + 1, once, w.events + [ev], batch, limit);
    w' := WithRelay(w, r, Relay(me.cycle + 2, Resting, {}, twice), w.outbox, w.events + [ev] + [ev]);
    assert w.events + [ev] + [ev] == w.events + [ev, ev];
  }
}
