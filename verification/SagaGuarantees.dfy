/** What the invariant gives: the promises of the saga, in every reachable state and over every run. */
module SagaGuarantees {
  import opened Payments
  import opened Ledger
  import opened SagaMachine
  import opened SagaInvariant

  // ----------------------------------------------------------------------- safety

  /** A booked payment is CAPTURED; a VOIDED one has an unsupported currency and no entry. */
  lemma NeverBookedAndVoided(w: World)
    requires Reachable(w)
    ensures forall i :: 0 <= i < |w.books.entries| ==>
      && w.books.entries[i].paymentId in w.payments
      && w.payments[w.books.entries[i].paymentId].status == Captured
    ensures forall p :: p in w.payments && w.payments[p].status == Voided ==>
      && !Supported(w.payments[p].currency)
      && forall i :: 0 <= i < |w.books.entries| ==> w.books.entries[i].paymentId != p
  {
    ReachableSound(w);
    forall i | 0 <= i < |w.books.entries|
      ensures var pid := w.books.entries[i].paymentId;
              pid in w.payments && w.payments[pid].status == Captured
    {
      assert EntrySound(w.outbox, w.books, i);
      var row := w.outbox[w.books.entries[i].eventId];
      assert RowMatches(w.payments, row);
      assert PaymentSound(w.outbox, row.paymentId, w.payments[row.paymentId]);
    }
    forall p | p in w.payments && w.payments[p].status == Voided ensures !Supported(w.payments[p].currency) {
      assert PaymentSound(w.outbox, p, w.payments[p]);
    }
  }

  /** Line `k` belongs to entry `i`. */
  predicate LineOf(b: Books, k: nat, i: nat)
    requires k < |b.lines|
  {
    b.lines[k].entry == i
  }

  /** At most one entry per event, and, as a payment has one event, at most one per payment. */
  lemma ExactlyOncePosting(w: World)
    requires Reachable(w)
    ensures forall i, j :: 0 <= i < |w.books.entries| && 0 <= j < |w.books.entries| ==>
      (w.books.entries[i].eventId == w.books.entries[j].eventId ==> i == j) &&
      (w.books.entries[i].paymentId == w.books.entries[j].paymentId ==> i == j)
  {
    ReachableSound(w);
    OneEntryEach(w);
  }

  /** An event carries its payment's own tenant, amount, currency and reference, ... */
  lemma EventsTellThePayment(w: World, i: nat)
    requires Reachable(w) && i < |w.events|
    ensures w.events[i].paymentId in w.payments
    ensures var ev := w.events[i];
      var p := w.payments[ev.paymentId];
      && (p.status == Captured || p.status == Voided) && ev.tenant == p.tenant && ev.amount == p.amount
      && ev.currency == p.currency && ev.reference == p.reference
  {
    ReachableSound(w);
    hide BooksSound, PostersSound, CompensatorsSound, RelaysSound, OutcomesSound;
    assert EventSound(w.outbox, w.events[i]);
    assert RowMatches(w.payments, w.outbox[w.events[i].eventId]);
  }

  /** ... and an outcome its tenant, the verdict on its currency, and why, under an identifier of the event's own. */
  lemma OutcomesTellThePayment(w: World, j: nat) returns (e: string)
    requires Reachable(w) && j < |w.outcomes|
    ensures w.outcomes[j].paymentId in w.payments
    ensures var o := w.outcomes[j];
      var p := w.payments[o.paymentId];
      && o.tenant == p.tenant && (o.status == Posted <==> p.currency == "USD" || p.currency == "EUR")
      && o.reason == if o.status == Posted then "" else "unsupported settlement currency: " + p.currency
    ensures w.outcomes[j].eventId == "outcome:" + e && e in w.outbox
    ensures w.outbox[e].paymentId == w.outcomes[j].paymentId
  {
    ReachableSound(w);
    hide BooksSound, PostersSound, CompensatorsSound, RelaysSound, EventsSound;
    assert OutcomeSound(w.outbox, w.books.entries, w.outcomes[j]);
    e := SourceOf(w.outcomes[j]);
    assert RowMatches(w.payments, w.outbox[e]);
  }

  lemma OneEntryEach(w: World)
    requires Inv(w)
    ensures forall i, j :: 0 <= i < |w.books.entries| && 0 <= j < |w.books.entries| ==>
      (w.books.entries[i].eventId == w.books.entries[j].eventId ==> i == j) &&
      (w.books.entries[i].paymentId == w.books.entries[j].paymentId ==> i == j)
  {
    var b := w.books;
    forall i, j | 0 <= i < |b.entries| && 0 <= j < |b.entries| && b.entries[i].paymentId == b.entries[j].paymentId
      ensures i == j
    {
      assert EntrySound(w.outbox, b, i) && EntrySound(w.outbox, b, j);
      assert w.outbox[b.entries[i].eventId].paymentId == w.outbox[b.entries[j].eventId].paymentId;
    }
  }

  /**
   Each entry has exactly one debit and one credit, of its payment's amount, currency and tenant, and no other line.
   */
  lemma EntryHasItsTwoLines(w: World, i: nat)
    requires Reachable(w) && i < |w.books.entries|
    ensures |w.books.lines| == 2 * |w.books.entries|
    ensures var e := w.books.entries[i];
      && e.paymentId in w.payments
      && var p := w.payments[e.paymentId];
         && w.books.lines[2 * i] == Line(i, p.tenant, CASH, Debit, p.amount, p.currency)
         && w.books.lines[2 * i + 1] == Line(i, p.tenant, MERCHANT_PAYABLE, Credit, p.amount, p.currency)
    ensures forall k :: 0 <= k < |w.books.lines| && LineOf(w.books, k, i) ==> k == 2 * i || k == 2 * i + 1
  {
    ReachableSound(w);
    assert EntrySound(w.outbox, w.books, i) && DoubleEntry(w.books, i);
    assert RowMatches(w.payments, w.outbox[w.books.entries[i].eventId]);
    hide Inv;
    LinesOfEntry(w.books, i);
  }

  lemma LinesOfEntry(b: Books, i: nat)
    requires Sound(b)
    ensures forall k :: 0 <= k < |b.lines| && LineOf(b, k, i) ==> k == 2 * i || k == 2 * i + 1
  {
    forall k | 0 <= k < |b.lines| && LineOf(b, k, i) ensures k == 2 * i || k == 2 * i + 1 {
      assert DoubleEntry(b, k / 2);
      assert k == 2 * (k / 2) || k == 2 * (k / 2) + 1;
    }
  }

  /** Every run keeps every tenant's book at zero in every currency, and the two balances opposite. */
  lemma BooksAlwaysBalance(w: World, tenant: string, currency: string)
    requires Reachable(w)
    ensures Sum(w.books.lines, InCurrency(tenant, currency, Debit)) ==
      Sum(w.books.lines, InCurrency(tenant, currency, Credit))
    ensures |w.books.lines| == 2 * |w.books.entries|
    ensures Balance(w.books.lines, tenant, CASH) == PostedTotal(w.books, tenant, |w.books.entries|)
    ensures Balance(w.books.lines, tenant, MERCHANT_PAYABLE) == -Balance(w.books.lines, tenant, CASH)
  {
    ReachableSound(w);
    TrialBalance(w.books, tenant, currency);
  }

  // ------------------------------------------------------------------ nothing lost

  /** Nothing leaves a hop before the next hop has it, unless a dead-letter write was silently lost. */
  lemma NoEventLost(w: World)
    requires Reachable(w)
    ensures forall p :: p in w.payments && w.payments[p].status != Authorized ==> HasRow(w.outbox, p)
    ensures forall e :: e in w.outbox ==> w.outbox[e].status == Pending || EventOf(e, w.outbox[e]) in w.events
    ensures w.eventsCommitted <= |w.events| && w.outcomesCommitted <= |w.outcomes|
    ensures forall i :: 0 <= i < w.eventsCommitted ==>
      OutcomeFor(w.events[i]) in w.outcomes || w.events[i] in w.eventsDlq || i in w.eventsDropped
    ensures forall j :: 0 <= j < w.outcomesCommitted ==>
      || w.outcomes[j].status == Posted || IsVoided(w.payments, w.outcomes[j].paymentId)
      || w.outcomes[j] in w.outcomesDlq || j in w.outcomesDropped
  {
    ReachableSound(w);
    forall p | p in w.payments && w.payments[p].status != Authorized ensures HasRow(w.outbox, p) {
      assert PaymentSound(w.outbox, p, w.payments[p]);
    }
    forall e | e in w.outbox ensures w.outbox[e].status == Pending || EventOf(e, w.outbox[e]) in w.events {
      assert RowMatches(w.payments, w.outbox[e]);
    }
    assert HandledBelow(w, w.eventsCommitted) && SettledBelow(w, w.outcomesCommitted);
    forall i | 0 <= i < w.eventsCommitted
      ensures OutcomeFor(w.events[i]) in w.outcomes || w.events[i] in w.eventsDlq || i in w.eventsDropped
    {
      assert Handled(w, i);
    }
    forall j | 0 <= j < w.outcomesCommitted
      ensures || w.outcomes[j].status == Posted || IsVoided(w.payments, w.outcomes[j].paymentId)
              || w.outcomes[j] in w.outcomesDlq || j in w.outcomesDropped
    {
      assert Settled(w, j);
    }
  }

  /** The producer's unchecked flush in both `_to_dlq` methods: this action is a lost dead-letter write. */
  predicate LosesDeadLetter(a: Action) {
    || (a.PosterStep? && a.post.Handle? && a.post.step == Park(false))
    || (a.SagaStep? && a.saga.Handle? && a.saga.step == Divert(false))
  }

  lemma StepDrops(w: World, a: Action)
    requires Enabled(w, a) && !LosesDeadLetter(a)
    ensures Next(w, a).eventsDropped == w.eventsDropped && Next(w, a).outcomesDropped == w.outcomesDropped
  {
    hide RelayEnabled, RelayNext, PostNext, SagaNext, CanAuthorize, CaptureTables, InsertBlocked, OutboxAfter;
    hide EventsAfter, PostEffect, SagaEffect, PostEnabled, SagaEnabled;
    match a
    case Authorize(_, _) =>
    case Capture(_, _, _, _) =>
    case RelayStep(_, _) =>
    case PosterStep(k, b) =>
      if b.Handle? {
        var p := PosterOf(w, k);
        PostEffectFrame(w, p.pos, w.events[p.pos], p.phase, b.step);
      }
    case SagaStep(k, b) =>
      if b.Handle? {
        var p := CompensatorOf(w, k);
        SagaEffectFrame(w, p.pos, w.outcomes[p.pos], b.step);
      }
  }

  /** Offsets are dropped by lost dead-letter writes and by nothing else. */
  lemma {:induction false} DroppedOnlyByLostWrites(w: World, run: seq<Action>)
    requires IsRun(w, run)
    requires forall i :: 0 <= i < |run| ==> !LosesDeadLetter(run[i])
    ensures Exec(w, run).eventsDropped == w.eventsDropped && Exec(w, run).outcomesDropped == w.outcomesDropped
    decreases |run|
  {
    if run != [] {
      hide Enabled, Next;
      var w1 := Next(w, run[0]);
      StepDrops(w, run[0]);
      DroppedOnlyByLostWrites(w1, run[1..]);
    }
  }

  /** With dead-letter delivery, every committed message was answered or is parked. */
  lemma NoEventLostWithDeadLetters(run: seq<Action>)
    requires IsRun(Init, run)
    requires forall i :: 0 <= i < |run| ==> !LosesDeadLetter(run[i])
    ensures var w := Exec(Init, run);
            && (forall i :: 0 <= i < w.eventsCommitted <= |w.events| ==>
                  OutcomeFor(w.events[i]) in w.outcomes || w.events[i] in w.eventsDlq)
            && (forall j :: 0 <= j < w.outcomesCommitted <= |w.outcomes| ==>
                  || w.outcomes[j].status == Posted || IsVoided(w.payments, w.outcomes[j].paymentId)
                  || w.outcomes[j] in w.outcomesDlq)
  {
    var w := Exec(Init, run);
    assert Reachable(w);
    NoEventLost(w);
    DroppedOnlyByLostWrites(Init, run);
  }

  // ------------------------------------------------------------------- life cycle

  function Rank(s: Status): nat {
    match s
    case Authorized => 0
    case Captured => 1
    case Voided => 2
    case Failed => 3
  }

  /** Facts of a payment never change and its status only moves forward. */
  ghost predicate PaymentsForward(before: map<string, Payment>, after: map<string, Payment>) {
    forall p :: p in before ==>
      p in after && after[p] == before[p].(status := after[p].status) && Rank(before[p].status) <= Rank(after[p].status)
  }

  ghost predicate RowsForward(before: map<string, OutboxRow>, after: map<string, OutboxRow>) {
    SameEvents(before, after) && forall e :: e in before && before[e].status == Published ==>
      after[e].status == Published
  }

  /** Everything that only ever grows or moves forward. */
  ghost predicate Forward(w: World, w': World) {
    && PaymentsForward(w.payments, w'.payments)
    && RowsForward(w.outbox, w'.outbox)
    && w.books.entries <= w'.books.entries && w.books.lines <= w'.books.lines && w.books.accounts <= w'.books.accounts
    && w.events <= w'.events && w.outcomes <= w'.outcomes
    && w.eventsDlq <= w'.eventsDlq && w.outcomesDlq <= w'.outcomesDlq
  }

  /** A payment before and after a step: the same facts, the status in place or one further. */
  ghost predicate MovesByOne(before: Payment, after: Payment) {
    && after == before.(status := after.status)
    && (after.status == before.status || Rank(after.status) == Rank(before.status) + 1)
  }

  /** One step moves a status by at most one place, and only a capture or a compensation moves one at all. */
  lemma StatusMovesByOne(w: World, a: Action, p: string)
    requires Inv(w) && Enabled(w, a) && p in w.payments
    ensures p in Next(w, a).payments && MovesByOne(w.payments[p], Next(w, a).payments[p])
    ensures w.payments[p].status != Next(w, a).payments[p].status ==>
      || (a.Capture? && a.pid == p && Next(w, a).payments[p].status == Captured)
      || (a.SagaStep? && a.saga.Handle? && a.saga.step.Compensate? && Next(w, a).payments[p].status == Voided)
  {
    match a
    case Authorize(_, _) =>
    case Capture(_, _, _, _) =>
    case RelayStep(r, b) => RelayStepForward(w, r, b);
    case PosterStep(k, b) => PosterStepForward(w, k, b);
    case SagaStep(k, b) => SagaStepForward(w, k, b);
  }

  lemma ApiForward(w: World, a: Action)
    requires Inv(w) && Enabled(w, a) && (a.Authorize? || a.Capture?)
    ensures Forward(w, Next(w, a))
  {
    hide Inv;
    var w' := Next(w, a);
    assert PaymentsForward(w.payments, w'.payments);
    assert RowsForward(w.outbox, w'.outbox);
    hide PaymentsForward, RowsForward;
  }

  lemma RelayStepForward(w: World, r: string, a: RelayAction)
    requires Enabled(w, RelayStep(r, a))
    ensures Forward(w, Next(w, RelayStep(r, a)))
    ensures Next(w, RelayStep(r, a)).payments == w.payments
  {
    hide RelayEnabled, RelayNext;
    var w' := Next(w, RelayStep(r, a));
    assert RowsForward(w.outbox, w'.outbox);
    assert PaymentsForward(w.payments, w'.payments);
    hide RowsForward, PaymentsForward;
  }

  lemma PosterStepFrame(w: World, k: string, a: WorkerAction<PostAction>)
    requires Enabled(w, PosterStep(k, a))
    ensures var w' := Next(w, PosterStep(k, a));
            && w'.payments == w.payments && w'.outbox == w.outbox && w'.events == w.events
            && w'.outcomesDlq == w.outcomesDlq
            && w'.relays == w.relays
  {
    hide PostNext, InsertBlocked, IsPosted, PostEnabled, PostEffect;
    if a.Handle? {
      var p := PosterOf(w, k);
      PostEffectFrame(w, p.pos, w.events[p.pos], p.phase, a.step);
    }
  }

  lemma PosterStepForward(w: World, k: string, a: WorkerAction<PostAction>)
    requires Enabled(w, PosterStep(k, a))
    ensures Forward(w, Next(w, PosterStep(k, a)))
    ensures Next(w, PosterStep(k, a)).payments == w.payments
  {
    hide PostNext, InsertBlocked, IsPosted, PostEnabled, PostEffect;
    if a.Handle? {
      var p := PosterOf(w, k);
      PostEffectFrame(w, p.pos, w.events[p.pos], p.phase, a.step);
      PostEffectAppends(w, p.pos, w.events[p.pos], p.phase, a.step);
    }
    assert RowsForward(w.outbox, w.outbox) && PaymentsForward(w.payments, w.payments);
    hide RowsForward, PaymentsForward;
  }

  /** Handling an event touches no payment and no outbox row, ... */
  lemma PostEffectFrame(w: World, pos: nat, ev: PaymentEvent, phase: Poster, h: PostAction)
    requires PostEnabled(ev, phase, h)
    ensures var w' := PostEffect(w, pos, ev, phase, h);
            && w'.payments == w.payments && w'.outbox == w.outbox && w'.events == w.events
            && w'.outcomesDlq == w.outcomesDlq
            && w'.relays == w.relays
            && (!(h == Park(false)) ==> w'.eventsDropped == w.eventsDropped)
            && w'.outcomesDropped == w.outcomesDropped
  {
    hide AddEntry, MakeOutcome;
  }

  /** ... and only appends to what it does touch. */
  lemma PostEffectAppends(w: World, pos: nat, ev: PaymentEvent, phase: Poster, h: PostAction)
    requires PostEnabled(ev, phase, h)
    ensures var w' := PostEffect(w, pos, ev, phase, h);
            && w.books.entries <= w'.books.entries && w.books.lines <= w'.books.lines
            && w.books.accounts <= w'.books.accounts
            && w.outcomes <= w'.outcomes && w.eventsDlq <= w'.eventsDlq
  {
    var w' := PostEffect(w, pos, ev, phase, h);
    if h.CommitPosting? {
      assert w'.books == AddEntry(w.books, ev);
    } else {
      assert w'.books == w.books;
    }
  }

  /** Handling an outcome touches only the payments, and those only by compensating. */
  lemma SagaEffectFrame(w: World, pos: nat, o: Outcome, h: SagaAction)
    ensures var w' := SagaEffect(w, pos, o, h);
            && w'.payments == (if h.Compensate? then PaymentsAfterOutcome(w.payments, o) else w.payments)
            && w'.outbox == w.outbox && w'.events == w.events && w'.outcomes == w.outcomes && w'.books == w.books
            && w'.relays == w.relays
            && w'.eventsDlq == w.eventsDlq && w.outcomesDlq <= w'.outcomesDlq
            && (!(h == Divert(false)) ==> w'.outcomesDropped == w.outcomesDropped)
            && w'.eventsDropped == w.eventsDropped
  {
    hide PaymentsAfterOutcome;
  }

  lemma SagaStepFrame(w: World, k: string, a: WorkerAction<SagaAction>)
    requires Enabled(w, SagaStep(k, a))
    ensures var w' := Next(w, SagaStep(k, a));
            && w'.payments == (if a.Handle? && a.step.Compensate?
                               then PaymentsAfterOutcome(w.payments, w.outcomes[CompensatorOf(w, k).pos])
                                 else w.payments)
            && w'.outbox == w.outbox && w'.events == w.events && w'.outcomes == w.outcomes && w'.books == w.books
            && w'.relays == w.relays
            && w'.eventsDlq == w.eventsDlq && w.outcomesDlq <= w'.outcomesDlq
  {
    hide SagaNext, SagaEnabled, SagaEffect, PaymentsAfterOutcome;
    if a.Handle? {
      var p := CompensatorOf(w, k);
      SagaEffectFrame(w, p.pos, w.outcomes[p.pos], a.step);
    }
  }

  lemma SagaStepForward(w: World, k: string, a: WorkerAction<SagaAction>)
    requires Inv(w) && Enabled(w, SagaStep(k, a))
    ensures Forward(w, Next(w, SagaStep(k, a)))
    ensures forall p :: p in w.payments ==> MovesByOne(w.payments[p], Next(w, SagaStep(k, a)).payments[p])
    ensures forall p :: p in w.payments && w.payments[p].status != Next(w, SagaStep(k, a)).payments[p].status ==>
      a.Handle? && a.step.Compensate? && Next(w, SagaStep(k, a)).payments[p].status == Voided
  {
    SagaStepFrame(w, k, a);
    var w' := Next(w, SagaStep(k, a));
    if a.Handle? && a.step.Compensate? {
      var o := w.outcomes[CompensatorOf(w, k).pos];
      if o.status == Rejected {
        RejectionMeetsCaptured(w, CompensatorOf(w, k).pos);
      }
      CompensationMovesByOne(w.payments, o);
    }
    hide Inv, Next, Enabled, PaymentsAfterOutcome;
    assert PaymentsForward(w.payments, w'.payments);
    assert RowsForward(w.outbox, w'.outbox);
    hide RowsForward, PaymentsForward;
  }

  lemma CompensationMovesByOne(payments: map<string, Payment>, o: Outcome)
    requires o.status == Rejected ==>
      o.paymentId in payments && (payments[o.paymentId].status == Captured || payments[o.paymentId].status == Voided)
    ensures var after := PaymentsAfterOutcome(payments, o);
            forall p :: p in payments ==>
              p in after && MovesByOne(payments[p], after[p]) &&
                (after[p].status != payments[p].status ==> after[p].status == Voided)
  {
  }

  lemma StepForward(w: World, a: Action)
    requires Inv(w) && Enabled(w, a)
    ensures Forward(w, Next(w, a))
  {
    hide Inv, Next, Enabled, Forward;
    match a
    case Authorize(_, _) => ApiForward(w, a);
    case Capture(_, _, _, _) => ApiForward(w, a);
    case RelayStep(r, b) => RelayStepForward(w, r, b);
    case PosterStep(k, b) => PosterStepForward(w, k, b);
    case SagaStep(k, b) => SagaStepForward(w, k, b);
  }

  lemma ForwardTransitive(a: World, b: World, c: World)
    requires Forward(a, b) && Forward(b, c)
    ensures Forward(a, c)
  {
  }

  /** Over any run the journal and the logs only grow and statuses only move forward. */
  lemma {:induction false} RunForward(w: World, run: seq<Action>)
    requires Inv(w) && IsRun(w, run)
    ensures Forward(w, Exec(w, run))
    decreases |run|
  {
    hide Inv, Enabled, Next;
    if run == [] {
    } else {
      var w1 := Next(w, run[0]);
      StepForward(w, run[0]);
      StepKeeps(w, run[0]);
      RunForward(w1, run[1..]);
      hide Forward;
      ForwardTransitive(w, w1, Exec(w, run));
    }
  }

  /** A payment has no outbox row while AUTHORIZED and exactly one ever after. */
  lemma OneRowOnceCaptured(w: World, p: string)
    requires Reachable(w) && p in w.payments
    ensures w.payments[p].status == Authorized ==> !HasRow(w.outbox, p)
    ensures w.payments[p].status != Authorized ==>
      exists e :: e in w.outbox && w.outbox[e].paymentId == p &&
        forall f :: f in w.outbox && w.outbox[f].paymentId == p ==> f == e
  {
    ReachableSound(w);
    assert PaymentSound(w.outbox, p, w.payments[p]);
    if HasRow(w.outbox, p) {
      var e :| e in w.outbox && w.outbox[e].paymentId == p;
      assert RowMatches(w.payments, w.outbox[e]);
    }
  }

  /** On its own, compensation keeps to the life cycle exactly when the payment is CAPTURED or VOIDED. */
  lemma CompensationSafeExactlyWhen(payments: map<string, Payment>, p: string)
    requires p in payments
    ensures MovesByOne(payments[p], CompensatePayments(payments, p)[p]) <==>
            payments[p].status == Captured || payments[p].status == Voided
    ensures payments[p].status == Authorized ==> CompensatePayments(payments, p)[p].status == Voided
  {
  }

  /** In the closed system it meets no other: what it voids was CAPTURED or already VOIDED. */
  lemma CompensationMeetsCaptured(w: World, k: string, raised: bool)
    requires Reachable(w) && Enabled(w, SagaStep(k, Handle(Compensate(raised))))
    ensures var o := w.outcomes[CompensatorOf(w, k).pos];
            o.status == Rejected ==>
              && o.paymentId in w.payments
              && (w.payments[o.paymentId].status == Captured || w.payments[o.paymentId].status == Voided)
  {
    ReachableSound(w);
    var j := CompensatorOf(w, k).pos;
    if w.outcomes[j].status == Rejected {
      RejectionMeetsCaptured(w, j);
    }
  }
}
