/** Building runs of the saga machine step by step, for the sequential code of one process. */
module SagaRuns {
  import opened Payments
  import opened Ledger
  import opened SagaMachine

  /** Some run leads from one world to the other. */
  ghost predicate Reaches(w: World, w': World) {
    exists run :: IsRun(w, run) && Exec(w, run) == w'
  }

  lemma ReachesSelf(w: World)
    ensures Reaches(w, w)
  {
    assert IsRun(w, []) && Exec(w, []) == w;
  }

  lemma ReachesStep(w0: World, w: World, a: Action)
    requires Reaches(w0, w) && Enabled(w, a)
    ensures Reaches(w0, Next(w, a))
  {
    hide Enabled, Next;
    var run :| IsRun(w0, run) && Exec(w0, run) == w;
    RunExtend(w0, run, a);
  }

  lemma ReachesTransitive(w0: World, w1: World, w2: World)
    requires Reaches(w0, w1) && Reaches(w1, w2)
    ensures Reaches(w0, w2)
  {
    hide Enabled, Next;
    var a :| IsRun(w0, a) && Exec(w0, a) == w1;
    var b :| IsRun(w1, b) && Exec(w1, b) == w2;
    RunConcat(w0, a, b);
  }

  /** So everything proved of reachable states holds after a worker's method as well. */
  lemma ReachableReaches(w: World, w': World)
    requires Reachable(w) && Reaches(w, w')
    ensures Reachable(w')
  {
    var run :| IsRun(w, run) && Exec(w, run) == w';
    ReachableRun(w, run);
  }

  // ------------------------------------------------------------------------- relay

  /** The world with one relay's state, the outbox and the log replaced. */
  function WithRelay(w: World, r: string, relay: Relay, outbox: map<string, OutboxRow>,
                     events: seq<PaymentEvent>): World {
    w.(outbox := outbox, events := events, relays := w.relays[r := relay])
  }

  lemma RelayMove(w: World, r: string, relay: Relay, outbox: map<string, OutboxRow>, events: seq<PaymentEvent>,
                  a: RelayAction)
    requires RelayEnabled(outbox, w.relays[r := relay], relay, a)
    ensures var w1 := WithRelay(w, r, relay, outbox, events);
            && Enabled(w1, RelayStep(r, a))
            && Next(w1, RelayStep(r, a)) ==
               WithRelay(w, r, RelayNext(outbox, w.relays[r := relay], relay, a),
                         OutboxAfter(outbox, relay, a), EventsAfter(outbox, events, a))
  {
    hide RelayEnabled, RelayNext, OutboxAfter, EventsAfter;
    var relay' := RelayNext(outbox, w.relays[r := relay], relay, a);
    assert w.relays[r := relay][r := relay'] == w.relays[r := relay'];
  }

  // --------------------------------------------------------------- ledger consumer

  /** A busy consumer may take sub-step `h` now. */
  ghost predicate PosterMay(w: World, k: string, h: PostAction) {
    var p := PosterOf(w, k);
    && p.Busy? && p.pos < |w.events| && PostEnabled(w.events[p.pos], p.phase, h)
    && (h.Insert? ==> !InsertBlocked(w.posters, w.events, k, w.events[p.pos].eventId))
  }

  /** The fields a sub-step of consumer `k` can change, spelt out. */
  lemma PosterDoes(w: World, k: string, h: PostAction)
    requires PosterMay(w, k, h)
    ensures Enabled(w, PosterStep(k, Handle(h)))
    ensures var p, w' := PosterOf(w, k), Next(w, PosterStep(k, Handle(h)));
      var ev := w.events[p.pos];
      && PosterOf(w', k) == PostNext(p.pos, ev, IsPosted(w.books.entries, ev.eventId), p.phase, h)
      && w'.events == w.events
      && w'.books == (if h.CommitPosting? then AddEntry(w.books, ev) else w.books)
      && w'.outcomes == (if h.Emit? then w.outcomes + [MakeOutcome(ev, p.phase.status, p.phase.reason)] else w.outcomes)
      && w'.eventsCommitted == (if h.CommitOffset? || h.CommitParked? then p.pos + 1 else w.eventsCommitted)
      && w'.eventsDlq == (if h == Park(true) then w.eventsDlq + [ev] else w.eventsDlq)
      && (InsertBlocked(w'.posters, w'.events, k, ev.eventId) <==> InsertBlocked(w.posters, w.events, k, ev.eventId))
  {
    hide PostNext, IsPosted, AddEntry, MakeOutcome, PostEnabled, HoldsIndex;
    var p, w' := PosterOf(w, k), Next(w, PosterStep(k, Handle(h)));
    var id := w.events[p.pos].eventId;
    if InsertBlocked(w.posters, w.events, k, id) {
      var o :| o in w.posters && o != k && HoldsIndex(w.posters[o], w.events, id);
      assert o in w'.posters && HoldsIndex(w'.posters[o], w'.events, id);
    }
    if InsertBlocked(w'.posters, w'.events, k, id) {
      var o :| o in w'.posters && o != k && HoldsIndex(w'.posters[o], w'.events, id);
      assert o in w.posters && HoldsIndex(w.posters[o], w.events, id);
    }
  }

  // ----------------------------------------------------------------- saga consumer

  /** The fields a sub-step of saga consumer `s` can change, spelt out. */
  lemma CompensatorDoes(w: World, s: string, h: SagaAction)
    requires var p := CompensatorOf(w, s); p.Busy? && p.pos < |w.outcomes| && SagaEnabled(p.phase, h)
    ensures Enabled(w, SagaStep(s, Handle(h)))
    ensures var p, w' := CompensatorOf(w, s), Next(w, SagaStep(s, Handle(h)));
      var o := w.outcomes[p.pos];
      && CompensatorOf(w', s) == SagaNext(p.pos, p.phase, h)
      && w'.outcomes == w.outcomes && w'.outbox == w.outbox
      && w'.payments == (if h.Compensate? then PaymentsAfterOutcome(w.payments, o) else w.payments)
      && w'.outcomesCommitted == (if h.Acknowledge? || h.AcknowledgeDiverted? then p.pos + 1 else w.outcomesCommitted)
      && w'.outcomesDlq == (if h == Divert(true) then w.outcomesDlq + [o] else w.outcomesDlq)
  {
    hide SagaNext, PaymentsAfterOutcome, SagaEnabled;
  }
}
