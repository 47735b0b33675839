/** When fault-free work can put a row in the topic twice: exactly when an earlier fault left it logged and PENDING. */
module SagaDuplicates {
  import opened Prelude
  import opened Payments
  import opened Ledger
  import opened SagaMachine
  import opened SagaInvariant
  import opened SagaGuarantees
  import opened SagaProgress
  import opened SagaRelay
  import opened SagaRuns
  import opened SagaWitnesses

  /** The event of row `e` was logged at position `n` or later. */
  ghost predicate LoggedSince(events: seq<PaymentEvent>, n: nat, e: string) {
    exists j :: n <= j < |events| && events[j].eventId == e
  }

  /** Whatever the relays have seen written, and whatever was published of some rows, was logged since `n`. */
  ghost predicate SentSince(w: World, c: Crew, n: nat, rows: set<string>) {
    && (forall r :: r in c.relays ==> RelaySent(w.events, RelayIn(w.relays, r), n))
    && RowsSent(w.outbox, w.events, n, rows)
  }

  ghost predicate RelaySent(events: seq<PaymentEvent>, relay: Relay, n: nat) {
    && (forall t :: t in relay.written ==> LoggedSince(events, n, t.row))
    && (forall d :: d in DeliveredOf(relay.phase) ==> LoggedSince(events, n, d))
  }

  ghost predicate RowsSent(outbox: map<string, OutboxRow>, events: seq<PaymentEvent>, n: nat, rows: set<string>) {
    forall e :: e in rows && e in outbox && outbox[e].status == Published ==> LoggedSince(events, n, e)
  }

  lemma LoggedSinceGrows(events: seq<PaymentEvent>, more: seq<PaymentEvent>, n: nat, e: string)
    requires LoggedSince(events, n, e) && events <= more
    ensures LoggedSince(more, n, e)
  {
    var j :| n <= j < |events| && events[j].eventId == e;
    assert more[j].eventId == e;
  }

  lemma WriteSends(outbox: map<string, OutboxRow>, relays: map<string, Relay>, events: seq<PaymentEvent>, relay: Relay,
                   t: Ticket, n: nat)
    requires RelayEnabled(outbox, relays, relay, Write(t)) && RelaySent(events, relay, n) && n <= |events|
    ensures RelaySent(EventsAfter(outbox, events, Write(t)), RelayNext(outbox, relays, relay, Write(t)), n)
  {
    var more := EventsAfter(outbox, events, Write(t));
    assert more[|events|].eventId == t.row;
    forall u | u in relay.written ensures LoggedSince(more, n, u.row) {
      LoggedSinceGrows(events, more, n, u.row);
    }
    forall d | d in DeliveredOf(relay.phase) ensures LoggedSince(more, n, d) {
      LoggedSinceGrows(events, more, n, d);
    }
    hide LoggedSince;
  }

  /** A relay's own step keeps what it knows to be in the log. */
  lemma RelayStepSends(outbox: map<string, OutboxRow>, relays: map<string, Relay>, events: seq<PaymentEvent>,
                       relay: Relay, b: RelayAction, n: nat)
    requires RelayEnabled(outbox, relays, relay, b) && RelaySent(events, relay, n) && n <= |events|
    ensures RelaySent(EventsAfter(outbox, events, b), RelayNext(outbox, relays, relay, b), n)
  {
    if b.Write? {
      WriteSends(outbox, relays, events, relay, b.ticket, n);
    } else {
      hide LoggedSince;
    }
  }

  lemma RowsSendOn(outbox: map<string, OutboxRow>, events: seq<PaymentEvent>, relay: Relay, b: RelayAction, n: nat,
                   rows: set<string>)
    requires RelaySent(events, relay, n) && RowsSent(outbox, events, n, rows)
    ensures RowsSent(OutboxAfter(outbox, relay, b), EventsAfter(outbox, events, b), n, rows)
  {
    var outbox', events' := OutboxAfter(outbox, relay, b), EventsAfter(outbox, events, b);
    hide LoggedSince;
    forall e | e in rows && e in outbox' && outbox'[e].status == Published ensures LoggedSince(events', n, e) {
      assert LoggedSince(events, n, e);
      LoggedSinceGrows(events, events', n, e);
    }
  }

  lemma RelaySentGrows(events: seq<PaymentEvent>, more: seq<PaymentEvent>, relay: Relay, n: nat)
    requires RelaySent(events, relay, n) && events <= more
    ensures RelaySent(more, relay, n)
  {
    forall t | t in relay.written ensures LoggedSince(more, n, t.row) {
      LoggedSinceGrows(events, more, n, t.row);
    }
    forall d | d in DeliveredOf(relay.phase) ensures LoggedSince(more, n, d) {
      LoggedSinceGrows(events, more, n, d);
    }
  }

  lemma StepSends(w: World, c: Crew, a: Action, n: nat, rows: set<string>)
    requires Enabled(w, a) && Healthy(c, a) && SentSince(w, c, n, rows) && n <= |w.events|
    ensures SentSince(Next(w, a), c, n, rows) && w.events <= Next(w, a).events
  {
    match a
    case RelayStep(r, b) =>
      RelayStepSends(w.outbox, w.relays, w.events, RelayOf(w, r), b, n);
      RowsSendOn(w.outbox, w.events, RelayOf(w, r), b, n, rows);
      var w' := Next(w, a);
      assert w.events <= w'.events;
      hide RowsSent, RelayEnabled, RelayNext, OutboxAfter, EventsAfter, LoggedSince;
      forall s | s in c.relays ensures RelaySent(w'.events, RelayIn(w'.relays, s), n) {
        if s != r {
          RelaySentGrows(w.events, w'.events, RelayIn(w.relays, s), n);
        }
      }
    case PosterStep(k, b) => hide Next, Enabled; PosterStepFrame(w, k, b);
    case SagaStep(k, b) => hide Next, Enabled; SagaStepFrame(w, k, b);
    case _ =>
  }

  lemma {:induction false} RunSends(w: World, c: Crew, run: seq<Action>, n: nat, rows: set<string>)
    requires HealthyRun(w, c, run) && SentSince(w, c, n, rows) && n <= |w.events|
    ensures SentSince(Exec(w, run), c, n, rows) && w.events <= Exec(w, run).events
    decreases |run|
  {
    hide Next, Enabled, Healthy, SentSince;
    if run != [] {
      StepSends(w, c, run[0], n, rows);
      RunSends(Next(w, run[0]), c, run[1..], n, rows);
    }
  }

  lemma {:induction false} HealthyIsFaultFree(w: World, c: Crew, run: seq<Action>)
    requires HealthyRun(w, c, run)
    ensures FaultFreeRun(w, run)
    decreases |run|
  {
    hide Next, Enabled;
    if run != [] {
      assert Healthy(c, run[0]) && FaultFree(w, run[0]);
      HealthyIsFaultFree(Next(w, run[0]), c, run[1..]);
    }
  }

  /** No relay is in a cycle or has a message out. */
  ghost predicate RelaysIdle(w: World) {
    forall r :: r in w.relays ==> w.relays[r].phase == Resting && w.relays[r].queued == {} && w.relays[r].written == {}
  }

  /** An earlier fault left this row in the topic although it is PENDING. */
  ghost predicate LeftLogged(w: World, e: string) {
    e in w.outbox && w.outbox[e].status == Pending && Logged(w.events, e)
  }

  lemma PublishedSince(w: World, c: Crew, n: nat, rows: set<string>, e: string)
    requires SentSince(w, c, n, rows) && e in rows && e in w.outbox && w.outbox[e].status == Published
    ensures LoggedSince(w.events, n, e)
  {
  }

  lemma NothingSentYet(w: World, c: Crew)
    requires RelaysIdle(w)
    ensures SentSince(w, c, |w.events|, PendingRows(w.outbox))
  {
  }

  /** Such a row is published in the end, and so written once more. */
  lemma LeftLoggedRepeats(w: World, c: Crew, e: string) returns (run: seq<Action>)
    requires Inv(w) && Working(w, c) && c.limit > 0 && RelaysIdle(w) && LeftLogged(w, e)
    ensures HealthyRun(w, c, run) && !NoRepeats(Exec(w, run).events)
  {
    var n := |w.events|;
    NothingSentYet(w, c);
    var i :| 0 <= i < |w.events| && w.events[i].eventId == e;
    assert e in PendingRows(w.outbox);
    hide Inv, Working, SentSince, Enabled, Next, Healthy, RelaysIdle;
    run := HealthyRunFinishes(w, c);
    var w' := Exec(w, run);
    RunSends(w, c, run, n, PendingRows(w.outbox));
    RunForward(w, run);
    RunKeeps(w, run);
    PendingEndsPublished(w, w', e);
    PublishedSince(w', c, n, PendingRows(w.outbox), e);
    var j :| n <= j < |w'.events| && w'.events[j].eventId == e;
    assert w'.events[i] == w.events[i];
  }

  lemma PendingEndsPublished(w: World, w': World, e: string)
    requires Forward(w, w') && Inv(w') && e in w.outbox && PendingRows(w'.outbox) == {}
    ensures e in w'.outbox && w'.outbox[e].status == Published
  {
    assert e in w'.outbox;
    assert RowMatches(w'.payments, w'.outbox[e]);
    assert e !in PendingRows(w'.outbox);
  }

  /**
   At most once, exactly. From a state in which the topic holds no row twice and no cycle is open,
   fault-free work keeps it so, in every interleaving, exactly when no PENDING row is in the topic.
   */
  lemma NoRepeatsExactlyWhen(w: World, c: Crew)
    requires Reachable(w) && Working(w, c) && c.limit > 0 && RelaysIdle(w) && NoRepeats(w.events)
    ensures (forall run :: HealthyRun(w, c, run) ==> NoRepeats(Exec(w, run).events)) <==>
      (forall e :: !LeftLogged(w, e))
  {
    ReachableSound(w);
    if e :| LeftLogged(w, e) {
      var run := LeftLoggedRepeats(w, c, e);
    } else {
      assert Tidy(w) by {
        assert PendingAccounted(w.outbox, w.events, w.relays) by {
          forall e | e in w.outbox && w.outbox[e].status == Pending ensures !Logged(w.events, e) {
            assert !LeftLogged(w, e);
          }
        }
      }
      forall run | HealthyRun(w, c, run) ensures NoRepeats(Exec(w, run).events) {
        HealthyIsFaultFree(w, c, run);
        RunTidy(w, run);
      }
    }
  }

  // --------------------------------------------------------------- a state with such a row

  const PAYMENT := Payment("tenant", None, 1, "USD", "reference", Authorized)

  /** One captured payment, and a crew that has just started. */
  ghost function OneCaptured(c: Crew): World {
    Init.(payments := map["payment" := PAYMENT.(status := Captured)],
          outbox := map["event" := RowFor("payment", PAYMENT, 0)],
          posters := map[c.poster := Idle(0)],
          compensators := map[c.compensator := Idle(0)])
  }

  lemma OneCapturedReached(c: Crew)
    ensures Reaches(Init, OneCaptured(c))
  {
    var w1 := Init.(payments := map["payment" := PAYMENT]);
    var w2 := w1.(payments := map["payment" := PAYMENT.(status := Captured)],
                  outbox := map["event" := RowFor("payment", PAYMENT, 0)]);
    var w3 := w2.(posters := map[c.poster := Idle(0)]);
    ReachesSelf(Init);
    assert Enabled(Init, Authorize("payment", PAYMENT)) && Next(Init, Authorize("payment", PAYMENT)) == w1;
    assert Next(w1, Capture("tenant", "payment", "event", 0)) == w2;
    assert Next(w2, PosterStep(c.poster, Start)) == w3;
    assert Next(w3, SagaStep(c.compensator, Start)) == OneCaptured(c);
    hide Reaches;
    ReachesStep(Init, Init, Authorize("payment", PAYMENT));
    ReachesStep(Init, w1, Capture("tenant", "payment", "event", 0));
    ReachesStep(Init, w2, PosterStep(c.poster, Start));
    ReachesStep(Init, w3, SagaStep(c.compensator, Start));
  }

  /** A relay of the crew locks the row and is rolled back. */
  lemma RolledBackOnce(c: Crew)
    requires c.limit > 0 && c.relays != []
    ensures var w, batch := OneCaptured(c), ["event"];
      && IsOldestBatch(w.outbox, w.relays, batch, c.limit)
      && Reaches(Init, WithRelay(w, c.relays[0], Relay(1, Resting, {}, {}), w.outbox, w.events))
  {
    var w, batch := OneCaptured(c), ["event"];
    var locked := w.(relays := map[c.relays[0] := Relay(1, Cycle(batch, 0, []), {}, {})]);
    OneCapturedReached(c);
    assert Claimable(w.outbox, w.relays, batch[0]);
    assert IsOldestBatch(w.outbox, w.relays, batch, c.limit);
    assert Next(w, RelayStep(c.relays[0], Lock(batch, c.limit))) == locked;
    assert Next(locked, RelayStep(c.relays[0], Rollback)) ==
      WithRelay(w, c.relays[0], Relay(1, Resting, {}, {}), w.outbox, w.events);
    hide Reaches, IsOldestBatch;
    ReachesStep(Init, w, RelayStep(c.relays[0], Lock(batch, c.limit)));
    ReachesStep(Init, locked, RelayStep(c.relays[0], Rollback));
  }

  /** Such a row can come about: from this state, fault-free work of the crew puts it in the topic twice. */
  lemma LeftLoggedIsReachable(c: Crew) returns (w: World, run: seq<Action>)
    requires c.limit > 0 && c.relays != [] && Distinct(c.relays)
    ensures Reachable(w) && Working(w, c) && RelaysIdle(w) && NoRepeats(w.events) && LeftLogged(w, "event")
    ensures HealthyRun(w, c, run) && !NoRepeats(Exec(w, run).events)
  {
    var w0 := OneCaptured(c);
    var ev := EventOf("event", w0.outbox["event"]);
    RolledBackOnce(c);
    WriteThenFailReport(Init, w0, c.relays[0], 1, [], ["event"], c.limit);
    w := WithRelay(w0, c.relays[0], Relay(2, Resting, {}, {}), w0.outbox, [] + [ev]);
    assert w.events[0].eventId == "event";
    assert LeftLogged(w, "event") && RelaysIdle(w) && NoRepeats(w.events) && Working(w, c);
    hide Working, RelaysIdle, NoRepeats, LeftLogged, IsOldestBatch;
    ReachableSound(w);
    run := LeftLoggedRepeats(w, c, "event");
  }
}
