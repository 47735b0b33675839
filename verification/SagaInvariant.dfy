/** The inductive invariant of the saga machine, and the proof that every action keeps it. */
module SagaInvariant {
  import opened Prelude
  import opened Payments
  import opened Ledger
  import opened SagaMachine

  // ------------------------------------------------------------------- components

  /** An outbox row repeats its payment's facts, and exists only for a payment once captured. */
  ghost predicate RowMatches(payments: map<string, Payment>, row: OutboxRow) {
    && row.paymentId in payments
    && var p := payments[row.paymentId];
       && row.tenant == p.tenant && row.amount == p.amount && row.currency == p.currency && row.reference == p.reference
       && row.eventType == PAYMENT_CAPTURED
       && row.status != GivenUp
       && (p.status == Captured || p.status == Voided)
  }

  ghost predicate HasRow(outbox: map<string, OutboxRow>, pid: string) {
    exists e :: e in outbox && outbox[e].paymentId == pid
  }

  /** A payment has no row while AUTHORIZED and one ever after; only unsupported ones are VOIDED. */
  ghost predicate PaymentSound(outbox: map<string, OutboxRow>, pid: string, p: Payment) {
    && p.status != Failed
    && p.amount >= 1
    && (p.status == Captured || p.status == Voided ==> HasRow(outbox, pid))
    && (p.status == Voided ==> !Supported(p.currency))
  }

  ghost predicate RowsMatch(payments: map<string, Payment>, outbox: map<string, OutboxRow>) {
    forall e :: e in outbox ==> RowMatches(payments, outbox[e])
  }

  ghost predicate OneRowEach(outbox: map<string, OutboxRow>) {
    forall e, f :: e in outbox && f in outbox && outbox[e].paymentId == outbox[f].paymentId ==> e == f
  }

  ghost predicate EachSound(payments: map<string, Payment>, outbox: map<string, OutboxRow>) {
    forall p :: p in payments ==> PaymentSound(outbox, p, payments[p])
  }

  ghost predicate PaymentsSound(payments: map<string, Payment>, outbox: map<string, OutboxRow>) {
    && RowsMatch(payments, outbox)
    && OneRowEach(outbox)
    && EachSound(payments, outbox)
    && UniqueKeys(payments)
  }

  /** The event is the one its own outbox row gives. */
  ghost predicate EventSound(outbox: map<string, OutboxRow>, ev: PaymentEvent) {
    ev.eventId in outbox && ev == EventOf(ev.eventId, outbox[ev.eventId])
  }

  ghost predicate EventsSound(outbox: map<string, OutboxRow>, events: seq<PaymentEvent>) {
    && (forall i :: 0 <= i < |events| ==> EventSound(outbox, events[i]))
    && (forall e :: e in outbox && outbox[e].status == Published ==> EventOf(e, outbox[e]) in events)
  }

  function DeliveredOf(phase: RelayPhase): seq<string> {
    match phase
    case Resting => []
    case Cycle(_, _, delivered) => delivered
    case Marked(_, delivered) => delivered
  }

  /** The rows of the batch that were produced so far. */
  function ProducedOf(phase: RelayPhase): seq<string> {
    match phase
    case Resting => []
    case Cycle(batch, next, _) => if next <= |batch| then batch[..next] else batch
    case Marked(batch, _) => batch
  }

  ghost predicate RelaySound(outbox: map<string, OutboxRow>, events: seq<PaymentEvent>, relay: Relay) {
    && BatchSound(outbox, relay.phase)
    && DeliveredSound(outbox, events, relay)
    && TicketsSound(outbox, events, relay)
  }

  /** The rows a cycle locks are distinct and stay PENDING until it commits. */
  ghost predicate BatchSound(outbox: map<string, OutboxRow>, phase: RelayPhase) {
    && Distinct(BatchOf(phase))
    && (forall e :: e in BatchOf(phase) ==> e in outbox && outbox[e].status == Pending)
    && (phase.Cycle? ==> phase.next <= |phase.batch|)
  }

  /** What the cycle counts as delivered is in the log, is its own, and has no report outstanding. */
  ghost predicate DeliveredSound(outbox: map<string, OutboxRow>, events: seq<PaymentEvent>, relay: Relay) {
    && Distinct(DeliveredOf(relay.phase))
    && forall d :: d in DeliveredOf(relay.phase) ==>
         && d in ProducedOf(relay.phase)
         && d in outbox && EventOf(d, outbox[d]) in events
         && Ticket(relay.cycle, d) !in relay.queued && Ticket(relay.cycle, d) !in relay.written
  }

  ghost predicate TicketsSound(outbox: map<string, OutboxRow>, events: seq<PaymentEvent>, relay: Relay) {
    && relay.queued !! relay.written
    && (forall t :: t in relay.queued || t in relay.written ==>
          && t.cycle <= relay.cycle
          && t.row in outbox
          && (!relay.phase.Resting? && t.cycle == relay.cycle ==> t.row in ProducedOf(relay.phase)))
    && (forall t :: t in relay.written && t.row in outbox ==> EventOf(t.row, outbox[t.row]) in events)
  }

  ghost predicate RelaysSound(outbox: map<string, OutboxRow>, events: seq<PaymentEvent>, relays: map<string, Relay>) {
    && (forall r :: r in relays ==> RelaySound(outbox, events, relays[r]))
    && DisjointBatches(relays)
  }

  ghost predicate DisjointBatches(relays: map<string, Relay>) {
    forall r, s, e :: r in relays && s in relays && e in BatchOf(relays[r].phase) && e in BatchOf(relays[s].phase) ==>
      r == s
  }

  /** Entry `i` was posted from the event of a supported payment, with that event's amount and currency. */
  ghost predicate EntrySound(outbox: map<string, OutboxRow>, b: Books, i: nat)
    requires i < |b.entries| && |b.lines| == 2 * |b.entries|
  {
    var e := b.entries[i];
    && e.eventId in outbox
    && var row := outbox[e.eventId];
       && e.tenant == row.tenant && e.paymentId == row.paymentId
       && b.lines[2 * i].amount == row.amount && b.lines[2 * i].currency == row.currency
       && Supported(row.currency)
  }

  ghost predicate BooksSound(outbox: map<string, OutboxRow>, b: Books) {
    Sound(b) && forall i :: 0 <= i < |b.entries| ==> EntrySound(outbox, b, i)
  }

  /** The outcome is the one its source event must have, and POSTED is said only of a posted event. */
  ghost predicate OutcomeSound(outbox: map<string, OutboxRow>, entries: seq<Entry>, o: Outcome) {
    && OUTCOME_PREFIX <= o.eventId
    && SourceOf(o) in outbox
    && o == OutcomeFor(EventOf(SourceOf(o), outbox[SourceOf(o)]))
    && (o.status == Posted ==> IsPosted(entries, SourceOf(o)))
  }

  ghost predicate OutcomesSound(outbox: map<string, OutboxRow>, entries: seq<Entry>, outcomes: seq<Outcome>) {
    forall j :: 0 <= j < |outcomes| ==> OutcomeSound(outbox, entries, outcomes[j])
  }

  /** The message left the consumer group for good: answered, parked, or lost by an unchecked dead-letter write. */
  ghost predicate Handled(w: World, i: nat)
    requires i < |w.events|
  {
    OutcomeFor(w.events[i]) in w.outcomes || w.events[i] in w.eventsDlq || i in w.eventsDropped
  }

  ghost predicate HandledBelow(w: World, pos: nat) {
    pos <= |w.events| && forall i :: 0 <= i < pos ==> Handled(w, i)
  }

  /** What a ledger consumer knows at each point of handling a message. */
  ghost predicate PhaseSound(w: World, pos: nat, phase: Poster)
    requires pos < |w.events|
  {
    var ev := w.events[pos];
    match phase
    case Decoding => true
    case Posting(attempt) => attempt <= MAX_RETRIES
    case Inserting(attempt) => attempt <= MAX_RETRIES && Supported(ev.currency)
    case Inserted(attempt) => attempt <= MAX_RETRIES && Supported(ev.currency) && !IsPosted(w.books.entries, ev.eventId)
    case Emitting(attempt, status, reason) =>
      && attempt <= MAX_RETRIES
      && status == Judge(ev.currency) && reason == Reason(ev.currency)
      && (status == Posted ==> IsPosted(w.books.entries, ev.eventId))
    case Confirming => OutcomeFor(ev) in w.outcomes
    case Parking => true
    case Parked => ev in w.eventsDlq || pos in w.eventsDropped
  }

  ghost predicate PosterSound(w: World, p: Worker<Poster>) {
    match p
    case Down => true
    case Idle(pos) => HandledBelow(w, pos)
    case Busy(pos, phase) => HandledBelow(w, pos) && pos < |w.events| && PhaseSound(w, pos, phase)
  }

  /** At most one open transaction holds an event id in the unique index. */
  ghost predicate IndexExclusive(posters: map<string, Worker<Poster>>, events: seq<PaymentEvent>) {
    forall k, o, e ::
      k in posters && o in posters && HoldsIndex(posters[k], events, e) && HoldsIndex(posters[o], events, e) ==> k == o
  }

  ghost predicate PostersSound(w: World) {
    && HandledBelow(w, w.eventsCommitted)
    && (forall k :: k in w.posters ==> PosterSound(w, w.posters[k]))
    && IndexExclusive(w.posters, w.events)
  }

  ghost predicate IsVoided(payments: map<string, Payment>, pid: string) {
    pid in payments && payments[pid].status == Voided
  }

  ghost predicate Settled(w: World, j: nat)
    requires j < |w.outcomes|
  {
    var o := w.outcomes[j];
    o.status == Posted || IsVoided(w.payments, o.paymentId) || o in w.outcomesDlq || j in w.outcomesDropped
  }

  ghost predicate SettledBelow(w: World, pos: nat) {
    pos <= |w.outcomes| && forall j :: 0 <= j < pos ==> Settled(w, j)
  }

  ghost predicate CompensatorSound(w: World, p: Worker<Compensator>) {
    match p
    case Down => true
    case Idle(pos) => SettledBelow(w, pos)
    case Busy(pos, phase) =>
      && SettledBelow(w, pos) && pos < |w.outcomes|
      && var o := w.outcomes[pos];
         && (phase.Acknowledging? ==> o.status == Posted || IsVoided(w.payments, o.paymentId))
         && (phase.Diverted? ==> o in w.outcomesDlq || pos in w.outcomesDropped)
  }

  ghost predicate CompensatorsSound(w: World) {
    && SettledBelow(w, w.outcomesCommitted)
    && forall k :: k in w.compensators ==> CompensatorSound(w, w.compensators[k])
  }

  ghost predicate Inv(w: World) {
    && PaymentsSound(w.payments, w.outbox)
    && EventsSound(w.outbox, w.events)
    && RelaysSound(w.outbox, w.events, w.relays)
    && BooksSound(w.outbox, w.books)
    && OutcomesSound(w.outbox, w.books.entries, w.outcomes)
    && PostersSound(w)
    && CompensatorsSound(w)
  }

  // ----------------------------------------------------------------- monotonicity

  /** Every row stays, with the same event; only its status may have changed. */
  ghost predicate SameEvents(before: map<string, OutboxRow>, after: map<string, OutboxRow>) {
    forall e :: e in before ==> e in after && after[e] == before[e].(status := after[e].status)
  }

  lemma BooksSoundGrows(before: map<string, OutboxRow>, after: map<string, OutboxRow>, b: Books)
    requires BooksSound(before, b) && SameEvents(before, after)
    ensures BooksSound(after, b)
  {
    forall i | 0 <= i < |b.entries| ensures EntrySound(after, b, i) {
      assert EntrySound(before, b, i);
    }
  }

  lemma PostedGrows(entries: seq<Entry>, more: seq<Entry>, eventId: string)
    requires entries <= more && IsPosted(entries, eventId)
    ensures IsPosted(more, eventId)
  {
    var i :| 0 <= i < |entries| && entries[i].eventId == eventId;
    assert more[i] == entries[i];
  }

  lemma OutcomesSoundGrows(before: map<string, OutboxRow>, after: map<string, OutboxRow>,
                           entries: seq<Entry>, more: seq<Entry>, outcomes: seq<Outcome>)
    requires OutcomesSound(before, entries, outcomes) && SameEvents(before, after) && entries <= more
    ensures OutcomesSound(after, more, outcomes)
  {
    forall j | 0 <= j < |outcomes| ensures OutcomeSound(after, more, outcomes[j]) {
      var o := outcomes[j];
      assert OutcomeSound(before, entries, o);
      if o.status == Posted {
        PostedGrows(entries, more, SourceOf(o));
      }
    }
  }

  /** Logs, dead letters and dropped offsets only grow. */
  ghost predicate LogsGrow(w: World, w': World) {
    && w.events <= w'.events && w.eventsDlq <= w'.eventsDlq && w.eventsDropped <= w'.eventsDropped
    && w.outcomes <= w'.outcomes && w.outcomesDlq <= w'.outcomesDlq && w.outcomesDropped <= w'.outcomesDropped
    && (forall p :: IsVoided(w.payments, p) ==> IsVoided(w'.payments, p))
  }

  lemma PrefixIn<T>(s: seq<T>, t: seq<T>, x: T)
    requires s <= t && x in s
    ensures x in t
  {
    var i :| 0 <= i < |s| && s[i] == x;
    assert t[i] == x;
  }

  lemma HandledBelowGrows(w: World, w': World, pos: nat)
    requires LogsGrow(w, w') && HandledBelow(w, pos)
    ensures HandledBelow(w', pos)
  {
    forall i | 0 <= i < pos ensures Handled(w', i) {
      assert Handled(w, i) && w'.events[i] == w.events[i];
      if OutcomeFor(w.events[i]) in w.outcomes {
        PrefixIn(w.outcomes, w'.outcomes, OutcomeFor(w.events[i]));
      } else if w.events[i] in w.eventsDlq {
        PrefixIn(w.eventsDlq, w'.eventsDlq, w.events[i]);
      }
    }
  }

  lemma SettledBelowGrows(w: World, w': World, pos: nat)
    requires LogsGrow(w, w') && SettledBelow(w, pos)
    ensures SettledBelow(w', pos)
  {
    forall j | 0 <= j < pos ensures Settled(w', j) {
      assert Settled(w, j) && w'.outcomes[j] == w.outcomes[j];
      if w.outcomes[j] in w.outcomesDlq {
        PrefixIn(w.outcomesDlq, w'.outcomesDlq, w.outcomes[j]);
      }
    }
  }

  /** A ledger consumer that did not move keeps what it knows, unless someone posted its own event. */
  lemma PosterSoundGrows(w: World, w': World, p: Worker<Poster>)
    requires LogsGrow(w, w') && PosterSound(w, p)
    requires w.books.entries <= w'.books.entries
    requires p.Busy? && p.phase.Inserted? && p.pos < |w.events| ==> !IsPosted(w'.books.entries, w.events[p.pos].eventId)
    ensures PosterSound(w', p)
  {
    if p.Idle? {
      HandledBelowGrows(w, w', p.pos);
    } else if p.Busy? {
      HandledBelowGrows(w, w', p.pos);
      var ev := w.events[p.pos];
      assert w'.events[p.pos] == ev;
      match p.phase {
        case Emitting(_, status, _) =>
          if status == Posted { PostedGrows(w.books.entries, w'.books.entries, ev.eventId); }
        case Confirming =>
          PrefixIn(w.outcomes, w'.outcomes, OutcomeFor(ev));
        case Parked =>
          if ev in w.eventsDlq { PrefixIn(w.eventsDlq, w'.eventsDlq, ev); }
        case _ =>
      }
    }
  }

  lemma CompensatorSoundGrows(w: World, w': World, p: Worker<Compensator>)
    requires LogsGrow(w, w') && CompensatorSound(w, p)
    ensures CompensatorSound(w', p)
  {
    if p.Idle? {
      SettledBelowGrows(w, w', p.pos);
    } else if p.Busy? {
      SettledBelowGrows(w, w', p.pos);
      var o := w.outcomes[p.pos];
      assert w'.outcomes[p.pos] == o;
      if o in w.outcomesDlq {
        PrefixIn(w.outcomesDlq, w'.outcomesDlq, o);
      }
    }
  }

  /** The same log, read further, names the same holders. */
  lemma IndexExclusiveGrows(posters: map<string, Worker<Poster>>, events: seq<PaymentEvent>, more: seq<PaymentEvent>)
    requires events <= more && IndexExclusive(posters, events)
    requires forall k :: k in posters && posters[k].Busy? ==> posters[k].pos < |events|
    ensures IndexExclusive(posters, more)
  {
    forall k, o, e | k in posters && o in posters && HoldsIndex(posters[k], more, e) && HoldsIndex(posters[o], more, e)
      ensures k == o
    {
      assert HoldsIndex(posters[k], events, e) && HoldsIndex(posters[o], events, e);
    }
  }

  /** Actions that leave the consumers and the books alone keep everything known about them. */
  lemma ConsumersKept(w: World, w': World)
    requires Inv(w) && LogsGrow(w, w')
    requires w'.posters == w.posters && w'.compensators == w.compensators && w'.books.entries == w.books.entries
    requires w'.eventsCommitted == w.eventsCommitted && w'.outcomesCommitted == w.outcomesCommitted
    ensures PostersSound(w') && CompensatorsSound(w')
  {
    HandledBelowGrows(w, w', w.eventsCommitted);
    SettledBelowGrows(w, w', w.outcomesCommitted);
    forall k | k in w.posters ensures PosterSound(w', w.posters[k]) {
      PosterSoundGrows(w, w', w.posters[k]);
    }
    IndexExclusiveGrows(w.posters, w.events, w'.events);
    forall k | k in w.compensators ensures CompensatorSound(w', w.compensators[k]) {
      CompensatorSoundGrows(w, w', w.compensators[k]);
    }
  }

  // ------------------------------------------------------------------------- API

  /** Changing statuses alone cannot make two payments share a key. */
  lemma KeysKept(before: map<string, Payment>, after: map<string, Payment>)
    requires UniqueKeys(before) && after.Keys == before.Keys
    requires forall p :: p in before ==> after[p] == before[p].(status := after[p].status)
    ensures UniqueKeys(after)
  {
    forall q, r | q in after && r in after && SameKey(after[q], after[r]) ensures q == r {
      assert SameKey(before[q], before[r]);
    }
  }

  lemma KeyAdded(payments: map<string, Payment>, pid: string, p: Payment)
    requires UniqueKeys(payments) && CanAuthorize(payments, pid, p)
    ensures UniqueKeys(payments[pid := p])
  {
    var after := payments[pid := p];
    forall q, r | q in after && r in after && SameKey(after[q], after[r]) ensures q == r {
      assert q == pid || !SameKey(payments[q], p);
      assert r == pid || !SameKey(payments[r], p);
    }
  }

  lemma AuthorizeKeepsPayments(payments: map<string, Payment>, outbox: map<string, OutboxRow>, pid: string, p: Payment)
    requires PaymentsSound(payments, outbox) && CanAuthorize(payments, pid, p)
    ensures PaymentsSound(payments[pid := p], outbox)
  {
    KeyAdded(payments, pid, p);
    hide UniqueKeys;
    forall e | e in outbox ensures RowMatches(payments[pid := p], outbox[e]) {
      assert RowMatches(payments, outbox[e]);
    }
  }

  lemma AuthorizeKeeps(w: World, pid: string, p: Payment)
    requires Inv(w) && CanAuthorize(w.payments, pid, p)
    ensures Inv(Next(w, Authorize(pid, p)))
  {
    var w' := Next(w, Authorize(pid, p));
    AuthorizeKeepsPayments(w.payments, w.outbox, pid, p);
    hide PaymentsSound, EventsSound, RelaysSound, BooksSound, OutcomesSound, CanAuthorize;
    ConsumersKept(w, w');
  }

  lemma CaptureKeepsPayments(payments: map<string, Payment>, outbox: map<string, OutboxRow>,
                             tenant: string, pid: string, eventId: string, at: nat)
    requires PaymentsSound(payments, outbox) && eventId !in outbox
    ensures var t := CaptureTables(Tables(payments, outbox), tenant, pid, eventId, at);
            && PaymentsSound(t.payments, t.outbox)
            && KeepsRows(outbox, t.outbox) && SameEvents(outbox, t.outbox)
            && (forall e :: e in t.outbox && e !in outbox ==> t.outbox[e].status == Pending)
            && (forall p :: IsVoided(payments, p) ==> IsVoided(t.payments, p))
  {
    if Capturable(payments, tenant, pid) {
      var t := CaptureTables(Tables(payments, outbox), tenant, pid, eventId, at);
      KeysKept(payments, t.payments);
      CapturedEachSound(payments, outbox, tenant, pid, eventId, at);
      CapturedRows(payments, outbox, tenant, pid, eventId, at);
      hide UniqueKeys, EachSound, RowMatches, OneRowEach;
    }
  }

  lemma CapturedRows(payments: map<string, Payment>, outbox: map<string, OutboxRow>, tenant: string, pid: string,
                     eventId: string, at: nat)
    requires PaymentsSound(payments, outbox) && eventId !in outbox && Capturable(payments, tenant, pid)
    ensures var t := CaptureTables(Tables(payments, outbox), tenant, pid, eventId, at);
      (forall e :: e in t.outbox ==> RowMatches(t.payments, t.outbox[e])) && OneRowEach(t.outbox)
  {
    var t := CaptureTables(Tables(payments, outbox), tenant, pid, eventId, at);
    hide UniqueKeys, EachSound;
    forall e | e in t.outbox ensures RowMatches(t.payments, t.outbox[e]) {
      assert e != eventId ==> RowMatches(payments, outbox[e]);
    }
    forall e | e in outbox ensures outbox[e].paymentId != pid {
      assert RowMatches(payments, outbox[e]);
    }
  }

  lemma CapturedEachSound(payments: map<string, Payment>, outbox: map<string, OutboxRow>,
                          tenant: string, pid: string, eventId: string, at: nat)
    requires EachSound(payments, outbox) && eventId !in outbox && Capturable(payments, tenant, pid)
    ensures var t := CaptureTables(Tables(payments, outbox), tenant, pid, eventId, at);
            EachSound(t.payments, t.outbox)
  {
    var t := CaptureTables(Tables(payments, outbox), tenant, pid, eventId, at);
    assert t.outbox[eventId].paymentId == pid;
    forall q | q in t.payments ensures PaymentSound(t.outbox, q, t.payments[q]) {
      assert PaymentSound(outbox, q, payments[q]);
      if q != pid && HasRow(outbox, q) {
        var e :| e in outbox && outbox[e].paymentId == q;
        assert t.outbox[e].paymentId == q;
      }
    }
  }

  /** New PENDING rows disturb no relay and no log. */
  lemma RelaysKeptByGrowth(before: map<string, OutboxRow>, after: map<string, OutboxRow>,
                           events: seq<PaymentEvent>, relays: map<string, Relay>)
    requires KeepsRows(before, after) && EventsSound(before, events) && RelaysSound(before, events, relays)
    requires forall e :: e in after && e !in before ==> after[e].status == Pending
    ensures EventsSound(after, events) && RelaysSound(after, events, relays)
  {
    forall i | 0 <= i < |events| ensures EventSound(after, events[i]) {
      assert EventSound(before, events[i]);
    }
    forall r | r in relays ensures RelaySound(after, events, relays[r]) {
      assert RelaySound(before, events, relays[r]);
    }
  }

  lemma CaptureKeeps(w: World, tenant: string, pid: string, eventId: string, at: nat)
    requires Inv(w) && eventId !in w.outbox
    ensures Inv(Next(w, Capture(tenant, pid, eventId, at)))
  {
    var w' := Next(w, Capture(tenant, pid, eventId, at));
    hide CaptureTables;
    CaptureKeepsPayments(w.payments, w.outbox, tenant, pid, eventId, at);
    RelaysKeptByGrowth(w.outbox, w'.outbox, w.events, w.relays);
    BooksSoundGrows(w.outbox, w'.outbox, w.books);
    OutcomesSoundGrows(w.outbox, w'.outbox, w.books.entries, w.books.entries, w.outcomes);
    ConsumersKept(w, w');
  }

  // ----------------------------------------------------------------------- relay

  lemma LockKeeps(outbox: map<string, OutboxRow>, events: seq<PaymentEvent>, relays: map<string, Relay>,
                  r: string, relay: Relay, batch: seq<string>, limit: nat)
    requires RelaysSound(outbox, events, relays) && (r in relays ==> relays[r] == relay)
    requires RelaySound(outbox, events, relay)
    requires RelayEnabled(outbox, relays, relay, Lock(batch, limit))
    ensures RelaysSound(outbox, events, relays[r := RelayNext(outbox, relays, relay, Lock(batch, limit))])
  {
    var relay' := RelayNext(outbox, relays, relay, Lock(batch, limit));
    var relays' := relays[r := relay'];
    assert RelaySound(outbox, events, relay');
    forall a, b, e | a in relays' && b in relays' && e in BatchOf(relays'[a].phase) && e in BatchOf(relays'[b].phase)
      ensures a == b
    {
      if a == r && b != r {
        assert Claimable(outbox, relays, e) && Locked(relays, e);
      } else if b == r && a != r {
        assert Claimable(outbox, relays, e) && Locked(relays, e);
      }
    }
  }

  lemma ProduceKeeps(outbox: map<string, OutboxRow>, events: seq<PaymentEvent>, relays: map<string, Relay>,
                     relay: Relay)
    requires RelaySound(outbox, events, relay) && RelayEnabled(outbox, relays, relay, Produce)
    ensures RelaySound(outbox, events, RelayNext(outbox, relays, relay, Produce))
  {
    var relay' := RelayNext(outbox, relays, relay, Produce);
    var batch, next := relay.phase.batch, relay.phase.next;
    assert batch[..next + 1] == batch[..next] + [batch[next]];
    assert batch[next] !in batch[..next];
  }

  lemma WriteKeeps(outbox: map<string, OutboxRow>, events: seq<PaymentEvent>, relays: map<string, Relay>, relay: Relay,
                   t: Ticket)
    requires RelaySound(outbox, events, relay) && RelayEnabled(outbox, relays, relay, Write(t))
    ensures RelaySound(outbox, EventsAfter(outbox, events, Write(t)), RelayNext(outbox, relays, relay, Write(t)))
  {
    var relay' := RelayNext(outbox, relays, relay, Write(t));
    var events' := EventsAfter(outbox, events, Write(t));
    assert events'[|events|] == EventOf(t.row, outbox[t.row]);
    assert forall x :: x in events ==> x in events';
    assert TicketsSound(outbox, events', relay');
    assert DeliveredSound(outbox, events', relay');
  }

  lemma ReportKeeps(outbox: map<string, OutboxRow>, events: seq<PaymentEvent>, relays: map<string, Relay>, relay: Relay,
                    t: Ticket, ok: bool)
    requires RelaySound(outbox, events, relay) && RelayEnabled(outbox, relays, relay, Report(t, ok))
    ensures RelaySound(outbox, events, RelayNext(outbox, relays, relay, Report(t, ok)))
  {
    var relay' := RelayNext(outbox, relays, relay, Report(t, ok));
    if ok && relay.phase.Cycle? && t.cycle == relay.cycle {
      assert t == Ticket(relay.cycle, t.row);
      assert t.row !in relay.phase.delivered;
    }
  }

  /** Only the relay that moved matters to its own soundness; the others and the log merely grow. */
  lemma OtherRelaysKept(outbox: map<string, OutboxRow>, events: seq<PaymentEvent>, more: seq<PaymentEvent>,
                        relay: Relay)
    requires RelaySound(outbox, events, relay) && events <= more
    ensures RelaySound(outbox, more, relay)
  {
    assert forall x :: x in events ==> x in more;
  }

  /** After a commit exactly the delivered rows are PUBLISHED; no other relay held them. */
  lemma CommitKeeps(outbox: map<string, OutboxRow>, events: seq<PaymentEvent>, relays: map<string, Relay>, r: string,
                    relay: Relay)
    requires EventsSound(outbox, events) && RelaysSound(outbox, events, relays)
    requires r in relays && relays[r] == relay && relay.phase.Marked?
    ensures var after := Publish(outbox, relay.phase.delivered);
            && EventsSound(after, events)
            && RelaysSound(after, events, relays[r := relay.(phase := Resting)])
            && SameEvents(outbox, after)
  {
    var after := Publish(outbox, relay.phase.delivered);
    var relays' := relays[r := relay.(phase := Resting)];
    assert RelaySound(outbox, events, relay);
    forall i | 0 <= i < |events| ensures EventSound(after, events[i]) {
      assert EventSound(outbox, events[i]);
    }
    forall s | s in relays' ensures RelaySound(after, events, relays'[s]) {
      assert RelaySound(outbox, events, relays[s]);
      if s != r {
        forall e | e in BatchOf(relays[s].phase) ensures e in after && after[e].status == Pending {
          assert e in BatchOf(relays[r].phase) ==> s == r;
        }
      }
    }
  }

  lemma PublishKeepsPayments(payments: map<string, Payment>, outbox: map<string, OutboxRow>, delivered: seq<string>)
    requires PaymentsSound(payments, outbox)
    ensures PaymentsSound(payments, Publish(outbox, delivered))
  {
    var after := Publish(outbox, delivered);
    forall p | p in payments ensures PaymentSound(after, p, payments[p]) {
      assert PaymentSound(outbox, p, payments[p]);
      if HasRow(outbox, p) {
        var e :| e in outbox && outbox[e].paymentId == p;
        assert after[e].paymentId == p;
      }
    }
    forall e | e in after ensures RowMatches(payments, after[e]) {
      assert RowMatches(payments, outbox[e]);
    }
  }

  lemma RelayStepKeepsRelays(outbox: map<string, OutboxRow>, events: seq<PaymentEvent>, relays: map<string, Relay>,
                             r: string, relay: Relay, a: RelayAction)
    requires EventsSound(outbox, events) && RelaysSound(outbox, events, relays)
    requires relay == (if r in relays then relays[r] else FreshRelay)
    requires RelayEnabled(outbox, relays, relay, a)
    ensures var after := OutboxAfter(outbox, relay, a);
            var events' := EventsAfter(outbox, events, a);
            && EventsSound(after, events')
            && RelaysSound(after, events', relays[r := RelayNext(outbox, relays, relay, a)])
            && SameEvents(outbox, after)
  {
    hide IsOldestBatch, DisjointBatches, EventsSound;
    assert RelaySound(outbox, events, relay);
    var relay' := RelayNext(outbox, relays, relay, a);
    var events' := EventsAfter(outbox, events, a);
    if a.Lock? {
      LockKeeps(outbox, events, relays, r, relay, a.batch, a.limit);
    } else if a.CommitCycle? {
      CommitKeeps(outbox, events, relays, r, relay);
    } else {
      assert BatchOf(relay'.phase) == BatchOf(relay.phase) || BatchOf(relay'.phase) == [];
      match a {
        case Produce => ProduceKeeps(outbox, events, relays, relay);
        case Write(t) =>
          WriteKeeps(outbox, events, relays, relay, t);
          EventsSoundWrite(outbox, events, t);
        case Report(t, ok) => ReportKeeps(outbox, events, relays, relay, t, ok);
        case Mark =>
        case Rollback =>
      }
      RelayMoves(outbox, events, events', relays, r, relay, relay');
    }
  }

  /** A relay that moved within its own batch leaves the others where they were. */
  lemma RelayMoves(outbox: map<string, OutboxRow>, events: seq<PaymentEvent>, more: seq<PaymentEvent>,
                   relays: map<string, Relay>, r: string, relay: Relay, relay': Relay)
    requires RelaysSound(outbox, events, relays) && events <= more
    requires relay == (if r in relays then relays[r] else FreshRelay)
    requires RelaySound(outbox, more, relay')
    requires BatchOf(relay'.phase) == BatchOf(relay.phase) || BatchOf(relay'.phase) == []
    ensures RelaysSound(outbox, more, relays[r := relay'])
  {
    hide RelaySound;
    forall s | s in relays && s != r ensures RelaySound(outbox, more, relays[s]) {
      OtherRelaysKept(outbox, events, more, relays[s]);
    }
  }

  lemma EventsSoundWrite(outbox: map<string, OutboxRow>, events: seq<PaymentEvent>, t: Ticket)
    requires EventsSound(outbox, events) && t.row in outbox
    ensures EventsSound(outbox, EventsAfter(outbox, events, Write(t)))
  {
    var events' := EventsAfter(outbox, events, Write(t));
    forall i | 0 <= i < |events'| ensures EventSound(outbox, events'[i]) {
      if i < |events| { assert EventSound(outbox, events[i]); }
    }
  }

  lemma RelayStepKeeps(w: World, r: string, a: RelayAction)
    requires Inv(w) && Enabled(w, RelayStep(r, a))
    ensures Inv(Next(w, RelayStep(r, a)))
  {
    hide BooksSound, OutcomesSound, PostersSound, CompensatorsSound, PaymentsSound, EventsSound;
    var relay := RelayOf(w, r);
    var w' := Next(w, RelayStep(r, a));
    RelayStepKeepsRelays(w.outbox, w.events, w.relays, r, relay, a);
    if a.CommitCycle? {
      PublishKeepsPayments(w.payments, w.outbox, relay.phase.delivered);
    }
    BooksSoundGrows(w.outbox, w'.outbox, w.books);
    OutcomesSoundGrows(w.outbox, w'.outbox, w.books.entries, w.books.entries, w.outcomes);
    ConsumersKept(w, w');
  }

  // -------------------------------------------------------------- ledger consumer

  /** A consumer's own step: it is sound where it lands, and it takes the index only when no one else has it. */
  lemma PosterMoves(w: World, w': World, k: string, p': Worker<Poster>)
    requires Inv(w) && LogsGrow(w, w')
    requires w'.events == w.events && w'.posters == w.posters[k := p'] && w.books.entries <= w'.books.entries
    requires HandledBelow(w', w'.eventsCommitted)
    requires PosterSound(w', p')
    requires p'.Busy? && p'.phase.Inserted? ==> !InsertBlocked(w.posters, w.events, k, w.events[p'.pos].eventId)
    requires forall o, e :: o in w.posters && o != k && HoldsIndex(w.posters[o], w.events, e) ==>
      !IsPosted(w'.books.entries, e)
    ensures PostersSound(w')
  {
    forall o | o in w'.posters ensures PosterSound(w', w'.posters[o]) {
      if o != k {
        var q := w.posters[o];
        if q.Busy? && q.phase.Inserted? {
          assert HoldsIndex(q, w.events, w.events[q.pos].eventId);
        }
        PosterSoundGrows(w, w', q);
      }
    }
    forall a, b, e | a in w'.posters && b in w'.posters && HoldsIndex(w'.posters[a], w.events, e) &&
      HoldsIndex(w'.posters[b], w.events, e)
      ensures a == b
    {
      assert a == k || HoldsIndex(w.posters[a], w.events, e);
      assert b == k || HoldsIndex(w.posters[b], w.events, e);
    }
  }

  /** While the books stand still, holders of the index are still unposted. */
  lemma HoldersUnposted(w: World, k: string)
    requires Inv(w)
    ensures forall o, e :: o in w.posters && o != k && HoldsIndex(w.posters[o], w.events, e) ==>
      !IsPosted(w.books.entries, e)
  {
    forall o, e | o in w.posters && o != k && HoldsIndex(w.posters[o], w.events, e)
      ensures !IsPosted(w.books.entries, e)
    {
      assert PosterSound(w, w.posters[o]);
    }
  }

  /** The next position is safe once the message at this one is handled. */
  lemma HandledNext(w: World, pos: nat)
    requires HandledBelow(w, pos) && pos < |w.events| && Handled(w, pos)
    ensures HandledBelow(w, pos + 1)
  {
  }

  lemma ControlKeeps(w: World, k: string, a: WorkerAction<PostAction>)
    requires Inv(w) && Enabled(w, PosterStep(k, a)) && !a.Handle?
    ensures Inv(Next(w, PosterStep(k, a)))
  {
    hide PaymentsSound, EventsSound, RelaysSound, BooksSound, OutcomesSound;
    var p := PosterOf(w, k);
    var w' := Next(w, PosterStep(k, a));
    HoldersUnposted(w, k);
    HandledBelowGrows(w, w', w.eventsCommitted);
    if p.Idle? { HandledBelowGrows(w, w', p.pos); }
    PosterMoves(w, w', k, w'.posters[k]);
    SagasKept(w, w');
  }

  lemma SagasKept(w: World, w': World)
    requires Inv(w) && LogsGrow(w, w')
    requires w'.compensators == w.compensators && w'.outcomesCommitted == w.outcomesCommitted
    ensures CompensatorsSound(w')
  {
    SettledBelowGrows(w, w', w.outcomesCommitted);
    forall k | k in w.compensators ensures CompensatorSound(w', w.compensators[k]) {
      CompensatorSoundGrows(w, w', w.compensators[k]);
    }
  }

  /** Sub-steps whose only effect is on the process itself, the offset or the dead letters. */
  lemma QuietStep(w: World, k: string, p': Worker<Poster>, committed: nat, dlq: seq<PaymentEvent>, dropped: set<nat>)
    requires Inv(w) && w.eventsDlq <= dlq && w.eventsDropped <= dropped
    requires var w' := w.(posters := w.posters[k := p'], eventsCommitted := committed, eventsDlq := dlq,
                          eventsDropped := dropped);
             && HandledBelow(w', committed)
             && PosterSound(w', p')
    requires p'.Busy? && p'.phase.Inserted? ==> !InsertBlocked(w.posters, w.events, k, w.events[p'.pos].eventId)
    ensures Inv(w.(posters := w.posters[k := p'], eventsCommitted := committed, eventsDlq := dlq,
                   eventsDropped := dropped))
  {
    var w' := w.(posters := w.posters[k := p'], eventsCommitted := committed, eventsDlq := dlq,
                 eventsDropped := dropped);
    hide PaymentsSound, EventsSound, RelaysSound, BooksSound, OutcomesSound;
    HoldersUnposted(w, k);
    PosterMoves(w, w', k, p');
    SagasKept(w, w');
  }

  lemma LocalPostKeeps(w: World, k: string, h: PostAction)
    requires Inv(w) && Enabled(w, PosterStep(k, Handle(h)))
    requires h.Decode? || h.Refuse? || h.Check? || h.Insert? || h.Fail? || h.CommitRefused?
    ensures Inv(Next(w, PosterStep(k, Handle(h))))
  {
    hide PaymentsSound, EventsSound, RelaysSound, BooksSound, OutcomesSound, CompensatorsSound;
    var p := PosterOf(w, k);
    var ev := w.events[p.pos];
    assert PosterSound(w, p) && PhaseSound(w, p.pos, p.phase);
    var p' := PostNext(p.pos, ev, IsPosted(w.books.entries, ev.eventId), p.phase, h);
    var w' := w.(posters := w.posters[k := p']);
    HandledBelowGrows(w, w', p.pos);
    HandledBelowGrows(w, w', w.eventsCommitted);
    assert PhaseSound(w', p.pos, p'.phase);
    QuietStep(w, k, p', w.eventsCommitted, w.eventsDlq, w.eventsDropped);
  }

  /** The offset moves only past a message that was answered, parked or dropped. */
  lemma OffsetKeeps(w: World, k: string, h: PostAction)
    requires Inv(w) && Enabled(w, PosterStep(k, Handle(h)))
    requires h.CommitOffset? || h.CommitParked?
    ensures Inv(Next(w, PosterStep(k, Handle(h))))
  {
    hide PaymentsSound, EventsSound, RelaysSound, BooksSound, OutcomesSound, CompensatorsSound;
    var p := PosterOf(w, k);
    assert PosterSound(w, p) && PhaseSound(w, p.pos, p.phase);
    assert Handled(w, p.pos);
    HandledNext(w, p.pos);
    var p' := PostNext(p.pos, w.events[p.pos], IsPosted(w.books.entries, w.events[p.pos].eventId), p.phase, h);
    var w' := w.(posters := w.posters[k := p'], eventsCommitted := p.pos + 1);
    HandledBelowGrows(w, w', p.pos + 1);
    PosterSoundGrows(w, w', Idle(p.pos + 1));
    assert p'.Busy? ==> p' == Busy(p.pos, Parking) && HandledBelow(w', p.pos);
    QuietStep(w, k, p', p.pos + 1, w.eventsDlq, w.eventsDropped);
  }

  lemma ParkKeeps(w: World, k: string, parked: bool)
    requires Inv(w) && Enabled(w, PosterStep(k, Handle(Park(parked))))
    ensures Inv(Next(w, PosterStep(k, Handle(Park(parked)))))
  {
    hide PaymentsSound, EventsSound, RelaysSound, BooksSound, OutcomesSound, CompensatorsSound;
    var p := PosterOf(w, k);
    var ev := w.events[p.pos];
    assert PosterSound(w, p);
    var dlq := if parked then w.eventsDlq + [ev] else w.eventsDlq;
    var dropped := if parked then w.eventsDropped else w.eventsDropped + {p.pos};
    assert parked ==> dlq[|w.eventsDlq|] == ev;
    var w' := w.(posters := w.posters[k := Busy(p.pos, Parked)], eventsDlq := dlq, eventsDropped := dropped);
    HandledBelowGrows(w, w', p.pos);
    HandledBelowGrows(w, w', w.eventsCommitted);
    QuietStep(w, k, Busy(p.pos, Parked), w.eventsCommitted, dlq, dropped);
  }

  /** Books and outcomes may grow too, as long as they stay sound and post no one else's held event. */
  lemma LoudStep(w: World, k: string, p': Worker<Poster>, books: Books, outcomes: seq<Outcome>)
    requires Inv(w) && w.books.entries <= books.entries && w.outcomes <= outcomes
    requires BooksSound(w.outbox, books) && OutcomesSound(w.outbox, books.entries, outcomes)
    requires var w' := w.(posters := w.posters[k := p'], books := books, outcomes := outcomes);
             p'.Busy? && p'.pos < |w.events| && PhaseSound(w', p'.pos, p'.phase) && !p'.phase.Inserted? &&
               HandledBelow(w, p'.pos)
    requires forall o, e :: o in w.posters && o != k && HoldsIndex(w.posters[o], w.events, e) ==>
      !IsPosted(books.entries, e)
    ensures Inv(w.(posters := w.posters[k := p'], books := books, outcomes := outcomes))
  {
    var w' := w.(posters := w.posters[k := p'], books := books, outcomes := outcomes);
    hide PaymentsSound, EventsSound, RelaysSound, BooksSound, OutcomesSound;
    HandledBelowGrows(w, w', p'.pos);
    HandledBelowGrows(w, w', w.eventsCommitted);
    PosterMoves(w, w', k, p');
    SagasKept(w, w');
  }

  /** Committing the posting transaction: the entry is new, balanced and the event's own. */
  lemma CommitPostingKeeps(w: World, k: string, raised: bool)
    requires Inv(w) && Enabled(w, PosterStep(k, Handle(CommitPosting(raised))))
    ensures Inv(Next(w, PosterStep(k, Handle(CommitPosting(raised)))))
  {
    hide PaymentsSound, RelaysSound;
    var p := PosterOf(w, k);
    var ev := w.events[p.pos];
    var books := AddEntry(w.books, ev);
    assert PosterSound(w, p) && PhaseSound(w, p.pos, p.phase);
    PostingSound(w, ev);
    HoldersUnposted(w, k);
    forall o, e | o in w.posters && o != k && HoldsIndex(w.posters[o], w.events, e)
      ensures !IsPosted(books.entries, e)
    {
      assert HoldsIndex(p, w.events, ev.eventId);
      assert e != ev.eventId;
    }
    var p' := PostNext(p.pos, ev, false, p.phase, CommitPosting(raised));
    LoudStep(w, k, p', books, w.outcomes);
  }

  lemma PostingSound(w: World, ev: PaymentEvent)
    requires Inv(w) && EventSound(w.outbox, ev) && Supported(ev.currency) && !IsPosted(w.books.entries, ev.eventId)
    ensures var books := AddEntry(w.books, ev);
            && BooksSound(w.outbox, books) && OutcomesSound(w.outbox, books.entries, w.outcomes)
            && IsPosted(books.entries, ev.eventId)
  {
    var books := AddEntry(w.books, ev);
    AddEntrySound(w.books, ev);
    forall i | 0 <= i < |books.entries| ensures EntrySound(w.outbox, books, i) {
      if i < |w.books.entries| { assert EntrySound(w.outbox, w.books, i); }
    }
    OutcomesSoundGrows(w.outbox, w.outbox, w.books.entries, books.entries, w.outcomes);
  }

  /** Whatever an earlier attempt or another consumer did, the outcome emitted is the event's one outcome. */
  lemma EmitKeeps(w: World, k: string, raised: bool)
    requires Inv(w) && Enabled(w, PosterStep(k, Handle(Emit(raised))))
    ensures Inv(Next(w, PosterStep(k, Handle(Emit(raised)))))
  {
    hide PaymentsSound, RelaysSound, BooksSound, CompensatorsSound;
    var p := PosterOf(w, k);
    var ev := w.events[p.pos];
    assert PosterSound(w, p) && PhaseSound(w, p.pos, p.phase);
    assert EventSound(w.outbox, ev);
    var outcomes := w.outcomes + [MakeOutcome(ev, p.phase.status, p.phase.reason)];
    assert outcomes[|w.outcomes|] == OutcomeFor(ev);
    assert SourceOf(OutcomeFor(ev)) == ev.eventId;
    forall j | 0 <= j < |outcomes| ensures OutcomeSound(w.outbox, w.books.entries, outcomes[j]) {
      if j < |w.outcomes| { assert OutcomeSound(w.outbox, w.books.entries, w.outcomes[j]); }
    }
    HoldersUnposted(w, k);
    LoudStep(w, k, PostNext(p.pos, ev, false, p.phase, Emit(raised)), w.books, outcomes);
  }

  // ---------------------------------------------------------------- saga consumer

  /** A REJECTED outcome belongs to an unsupported payment that was captured: never to an AUTHORIZED one. */
  lemma RejectionMeetsCaptured(w: World, j: nat)
    requires Inv(w) && j < |w.outcomes| && w.outcomes[j].status == Rejected
    ensures var pid := w.outcomes[j].paymentId;
            && pid in w.payments
            && (w.payments[pid].status == Captured || w.payments[pid].status == Voided)
            && !Supported(w.payments[pid].currency)
  {
    var o := w.outcomes[j];
    assert OutcomeSound(w.outbox, w.books.entries, o);
    assert RowMatches(w.payments, w.outbox[SourceOf(o)]);
  }

  lemma CompensateKeepsPayments(w: World, pid: string)
    requires Inv(w) && pid in w.payments && !Supported(w.payments[pid].currency)
    requires w.payments[pid].status == Captured || w.payments[pid].status == Voided
    ensures var after := CompensatePayments(w.payments, pid);
            && PaymentsSound(after, w.outbox) && IsVoided(after, pid)
            && forall p :: IsVoided(w.payments, p) ==> IsVoided(after, p)
  {
    var after := CompensatePayments(w.payments, pid);
    KeysKept(w.payments, after);
    hide UniqueKeys, EventsSound, RelaysSound, BooksSound, OutcomesSound, PostersSound, CompensatorsSound;
    forall e | e in w.outbox ensures RowMatches(after, w.outbox[e]) {
      assert RowMatches(w.payments, w.outbox[e]);
    }
    forall p | p in after ensures PaymentSound(w.outbox, p, after[p]) {
      assert PaymentSound(w.outbox, p, w.payments[p]);
    }
  }

  lemma CompensatorMoves(w: World, w': World, k: string, p': Worker<Compensator>)
    requires Inv(w) && LogsGrow(w, w')
    requires w'.compensators == w.compensators[k := p'] && CompensatorSound(w', p')
    requires SettledBelow(w', w'.outcomesCommitted)
    ensures CompensatorsSound(w')
  {
    forall o | o in w'.compensators ensures CompensatorSound(w', w'.compensators[o]) {
      if o != k { CompensatorSoundGrows(w, w', w.compensators[o]); }
    }
  }

  lemma PostersKept(w: World, w': World)
    requires Inv(w) && LogsGrow(w, w')
    requires w'.posters == w.posters && w'.books == w.books && w'.events == w.events
    requires w'.eventsCommitted == w.eventsCommitted
    ensures PostersSound(w')
  {
    HandledBelowGrows(w, w', w.eventsCommitted);
    forall k | k in w.posters ensures PosterSound(w', w.posters[k]) {
      PosterSoundGrows(w, w', w.posters[k]);
    }
  }

  lemma SagaControlKeeps(w: World, k: string, a: WorkerAction<SagaAction>)
    requires Inv(w) && Enabled(w, SagaStep(k, a)) && !a.Handle?
    ensures Inv(Next(w, SagaStep(k, a)))
  {
    var w' := Next(w, SagaStep(k, a));
    assert CompensatorSound(w, CompensatorOf(w, k));
    CompensatorSoundGrows(w, w', CompensatorOf(w, k));
    SettledBelowGrows(w, w', w.outcomesCommitted);
    CompensatorMoves(w, w', k, w'.compensators[k]);
    PostersKept(w, w');
  }

  /** Every sub-step of the saga consumer but the compensation itself. */
  lemma SagaHandleKeeps(w: World, k: string, h: SagaAction)
    requires Inv(w) && Enabled(w, SagaStep(k, Handle(h))) && !h.Compensate?
    ensures Inv(Next(w, SagaStep(k, Handle(h))))
  {
    hide PaymentsSound, EventsSound, RelaysSound, BooksSound, OutcomesSound;
    var p := CompensatorOf(w, k);
    var w' := Next(w, SagaStep(k, Handle(h)));
    assert CompensatorSound(w, p);
    if h.Divert? && h.diverted {
      assert w'.outcomesDlq[|w.outcomesDlq|] == w.outcomes[p.pos];
    }
    SettledBelowGrows(w, w', p.pos);
    SettledBelowGrows(w, w', w.outcomesCommitted);
    if h.Acknowledge? || h.AcknowledgeDiverted? {
      assert Settled(w', p.pos);
    }
    CompensatorMoves(w, w', k, w'.compensators[k]);
    PostersKept(w, w');
  }

  /** Compensation only ever meets a captured payment, so it keeps the life cycle. */
  lemma CompensateKeeps(w: World, k: string, raised: bool)
    requires Inv(w) && Enabled(w, SagaStep(k, Handle(Compensate(raised))))
    ensures Inv(Next(w, SagaStep(k, Handle(Compensate(raised)))))
  {
    hide EventsSound, RelaysSound, BooksSound;
    var p := CompensatorOf(w, k);
    var o := w.outcomes[p.pos];
    var w' := Next(w, SagaStep(k, Handle(Compensate(raised))));
    assert CompensatorSound(w, p);
    if o.status == Rejected {
      RejectionMeetsCaptured(w, p.pos);
      CompensateKeepsPayments(w, o.paymentId);
    }
    hide PaymentsSound, EventsSound, RelaysSound, BooksSound, OutcomesSound, CompensatePayments;
    SettledBelowGrows(w, w', p.pos);
    SettledBelowGrows(w, w', w.outcomesCommitted);
    CompensatorMoves(w, w', k, w'.compensators[k]);
    PostersKept(w, w');
  }

  lemma SagaStepKeeps(w: World, k: string, a: WorkerAction<SagaAction>)
    requires Inv(w) && Enabled(w, SagaStep(k, a))
    ensures Inv(Next(w, SagaStep(k, a)))
  {
    hide Inv, Enabled, Next;
    if !a.Handle? {
      SagaControlKeeps(w, k, a);
    } else if a.step.Compensate? {
      CompensateKeeps(w, k, a.step.raised);
    } else {
      SagaHandleKeeps(w, k, a.step);
    }
  }

  // ------------------------------------------------------------------------- runs

  lemma StepKeeps(w: World, a: Action)
    requires Inv(w) && Enabled(w, a)
    ensures Inv(Next(w, a))
  {
    hide Inv, Next;
    match a
    case Authorize(pid, p) => AuthorizeKeeps(w, pid, p);
    case Capture(tenant, pid, eventId, at) => CaptureKeeps(w, tenant, pid, eventId, at);
    case RelayStep(r, b) => RelayStepKeeps(w, r, b);
    case SagaStep(k, b) => SagaStepKeeps(w, k, b);
    case PosterStep(k, b) =>
      if b.Handle? {
        match b.step
        case CommitPosting(raised) => CommitPostingKeeps(w, k, raised);
        case Emit(raised) => EmitKeeps(w, k, raised);
        case CommitOffset(_) => OffsetKeeps(w, k, b.step);
        case CommitParked => OffsetKeeps(w, k, b.step);
        case Park(parked) => ParkKeeps(w, k, parked);
        case _ => LocalPostKeeps(w, k, b.step);
      } else {
        ControlKeeps(w, k, b);
      }
  }

  lemma {:induction false} RunKeeps(w: World, run: seq<Action>)
    requires Inv(w) && IsRun(w, run)
    ensures Inv(Exec(w, run))
    decreases |run|
  {
    hide Inv, Enabled, Next;
    if run != [] {
      StepKeeps(w, run[0]);
      RunKeeps(Next(w, run[0]), run[1..]);
    }
  }

  lemma InitSound()
    ensures Inv(Init)
  {
  }

  /** The invariant holds in every reachable state. */
  lemma ReachableSound(w: World)
    requires Reachable(w)
    ensures Inv(w)
  {
    hide Inv;
    InitSound();
    var run :| IsRun(Init, run) && Exec(Init, run) == w;
    RunKeeps(Init, run);
  }
}
