/**
 The payment-to-ledger saga as a step machine. Every action is one atomic step of one
 process: a transaction of the API, a sub-step of a relay cycle, a broker write, a sub-step
 of a consumer, a crash or a restart. Actions of any number of processes interleave freely.
 */
module SagaMachine {
  import opened Prelude
  import opened Payments
  import opened Ledger

  // ------------------------------------------------------------------- messages

  /** The relay's event body: everything but the row's own status and creation time. */
  function EventOf(id: string, row: OutboxRow): PaymentEvent {
    PaymentEvent(id, row.tenant, row.paymentId, row.amount, row.currency, row.reference)
  }

  datatype Outcome = Outcome(eventId: string, tenant: string, paymentId: string, status: Verdict, reason: string)

  const OUTCOME_PREFIX := "outcome:"

  function MakeOutcome(ev: PaymentEvent, status: Verdict, reason: string): Outcome {
    Outcome(OUTCOME_PREFIX + ev.eventId, ev.tenant, ev.paymentId, status, reason)
  }

  /** The one outcome an event can have. */
  function OutcomeFor(ev: PaymentEvent): Outcome {
    MakeOutcome(ev, Judge(ev.currency), Reason(ev.currency))
  }

  /** The source event's id, read back from an outcome's deterministic id. */
  function SourceOf(o: Outcome): string
    requires OUTCOME_PREFIX <= o.eventId
  {
    o.eventId[|OUTCOME_PREFIX|..]
  }

  // ------------------------------------------------------------------ processes

  /** A produced message whose delivery report is still out; `cycle` is the cycle that produced it. */
  datatype Ticket = Ticket(cycle: nat, row: string)

  datatype RelayPhase =
    | Resting
    | Cycle(batch: seq<string>, next: nat, delivered: seq<string>)
    | Marked(batch: seq<string>, delivered: seq<string>)

  /** The producer's queue outlives a cycle: a rolled-back cycle leaves its messages in it. */
  datatype Relay = Relay(cycle: nat, phase: RelayPhase, queued: set<Ticket>, written: set<Ticket>)

  const FreshRelay := Relay(0, Resting, {}, {})

  datatype Poster =
    | Decoding
    | Posting(attempt: nat)
    | Inserting(attempt: nat)
    | Inserted(attempt: nat)
    | Emitting(attempt: nat, status: Verdict, reason: string)
    | Confirming
    | Parking
    | Parked

  datatype Compensator =
    | Reading
    | Compensating(attempt: nat)
    | Acknowledging
    | Diverting
    | Diverted

  /** A consumer process: dead, polling at a position, or busy with the message at a position. */
  datatype Worker<+P> = Down | Idle(pos: nat) | Busy(pos: nat, phase: P)

  // ---------------------------------------------------------------------- state

  datatype World = World(
    payments: map<string, Payment>,
    outbox: map<string, OutboxRow>,
    books: Books,
    /* payments.events, its dead-letter topic and the ledger group's committed offset */
    events: seq<PaymentEvent>,
    eventsDlq: seq<PaymentEvent>,
    eventsCommitted: nat,
    /* ledger.events, its dead-letter topic and the saga group's committed offset */
    outcomes: seq<Outcome>,
    outcomesDlq: seq<Outcome>,
    outcomesCommitted: nat,
    /* history only: offsets whose dead-letter write was not delivered */
    eventsDropped: set<nat>,
    outcomesDropped: set<nat>,
    relays: map<string, Relay>,
    posters: map<string, Worker<Poster>>,
    compensators: map<string, Worker<Compensator>>)

  const Init := World(map[], map[], EmptyBooks, [], [], 0, [], [], 0, {}, {}, map[], map[], map[])

  function RelayIn(relays: map<string, Relay>, r: string): Relay {
    if r in relays then relays[r] else FreshRelay
  }

  function RelayOf(w: World, r: string): Relay {
    RelayIn(w.relays, r)
  }

  function PosterOf(w: World, k: string): Worker<Poster> {
    if k in w.posters then w.posters[k] else Down
  }

  function CompensatorOf(w: World, k: string): Worker<Compensator> {
    if k in w.compensators then w.compensators[k] else Down
  }

  // --------------------------------------------------------------------- actions

  datatype RelayAction =
    | Lock(batch: seq<string>, limit: nat)  // SELECT ... FOR UPDATE SKIP LOCKED
    | Produce                               // next row: serialize and enqueue, or skip it
    | Write(ticket: Ticket)                 // the broker appends the message
    | Report(ticket: Ticket, ok: bool)      // the delivery callback runs
    | Mark                                  // after flush: UPDATE the delivered rows
    | CommitCycle
    | Rollback                              // an exception or a crash ends the cycle

  /** `raised` means the effect happened but the caller saw an exception. */
  datatype PostAction =
    | Decode(ok: bool)
    | Refuse                                // unsupported currency: REJECTED, nothing written
    | Check                                 // does an entry with this event id exist?
    | Insert                                // insert the entry, or lose to a committed one
    | CommitPosting(raised: bool)
    | Emit(raised: bool)                    // the broker appends the outcome
    | Fail                                  // an exception with no effect left behind
    | CommitOffset(raised: bool)
    | CommitRefused
    | Park(parked: bool)                    // dead-letter write, flushed but not checked
    | CommitParked

  datatype SagaAction =
    | Interpret(ok: bool)
    | Compensate(raised: bool)
    | Stumble
    | Acknowledge(raised: bool)
    | AcknowledgeRefused
    | Divert(diverted: bool)
    | AcknowledgeDiverted

  /** `Start` is a start, restart or rebalance: the process resumes from the committed offset. */
  datatype WorkerAction<+H> = Start | Poll | Crash | Handle(step: H)

  datatype Action =
    | Authorize(pid: string, payment: Payment)
    | Capture(tenant: string, pid: string, eventId: string, at: nat)
    | RelayStep(relay: string, relayAction: RelayAction)
    | PosterStep(worker: string, post: WorkerAction<PostAction>)
    | SagaStep(worker: string, saga: WorkerAction<SagaAction>)

  const MAX_RETRIES: nat := 3

  // ------------------------------------------------------------------------ API

  /** A new AUTHORIZED payment under a new id, allowed by the unique-key constraint. */
  ghost predicate CanAuthorize(payments: map<string, Payment>, pid: string, p: Payment) {
    && pid !in payments
    && p.status == Authorized
    && p.amount >= 1
    && (forall q :: q in payments ==> !SameKey(payments[q], p))
  }

  // ---------------------------------------------------------------------- relay

  function BatchOf(phase: RelayPhase): seq<string> {
    match phase
    case Resting => []
    case Cycle(batch, _, _) => batch
    case Marked(batch, _) => batch
  }

  ghost predicate Locked(relays: map<string, Relay>, e: string) {
    exists r :: r in relays && e in BatchOf(relays[r].phase)
  }

  ghost predicate Claimable(outbox: map<string, OutboxRow>, relays: map<string, Relay>, e: string) {
    e in outbox && outbox[e].status == Pending && !Locked(relays, e)
  }

  /** The oldest claimable rows, at most `limit` of them, in order of creation. */
  ghost predicate IsOldestBatch(outbox: map<string, OutboxRow>, relays: map<string, Relay>, batch: seq<string>,
                                limit: nat) {
    && 0 < |batch| <= limit
    && Distinct(batch)
    && (forall i :: 0 <= i < |batch| ==> Claimable(outbox, relays, batch[i]))
    && (forall i, j :: 0 <= i < j < |batch| ==> outbox[batch[i]].createdAt <= outbox[batch[j]].createdAt)
    && (forall e :: Claimable(outbox, relays, e) && e !in batch ==>
          |batch| == limit && forall i :: 0 <= i < |batch| ==> outbox[batch[i]].createdAt <= outbox[e].createdAt)
  }

  ghost predicate RelayEnabled(outbox: map<string, OutboxRow>, relays: map<string, Relay>, relay: Relay,
                               a: RelayAction) {
    match a
    case Lock(batch, limit) => relay.phase.Resting? && IsOldestBatch(outbox, relays, batch, limit)
    case Produce => relay.phase.Cycle? && relay.phase.next < |relay.phase.batch| &&
      relay.phase.batch[relay.phase.next] in outbox
    case Write(t) => t in relay.queued && t.row in outbox
    case Report(t, ok) => if ok then t in relay.written else t in relay.queued + relay.written
    case Mark => relay.phase.Cycle? && relay.phase.next == |relay.phase.batch| && relay.queued + relay.written == {}
    case CommitCycle => relay.phase.Marked?
    case Rollback => !relay.phase.Resting?
  }

  ghost function RelayNext(outbox: map<string, OutboxRow>, relays: map<string, Relay>, relay: Relay,
                           a: RelayAction): Relay
    requires RelayEnabled(outbox, relays, relay, a)
  {
    match a
    case Lock(batch, _) => relay.(cycle := relay.cycle + 1, phase := Cycle(batch, 0, []))
    case Produce =>
      var e := relay.phase.batch[relay.phase.next];
      var moved := relay.(phase := relay.phase.(next := relay.phase.next + 1));
      // A row whose event type has no schema is logged and skipped.
      if outbox[e].eventType == PAYMENT_CAPTURED then moved.(queued := relay.queued + {Ticket(relay.cycle, e)})
        else moved
    case Write(t) => relay.(queued := relay.queued - {t}, written := relay.written + {t})
    case Report(t, ok) =>
      var settled := relay.(queued := relay.queued - {t}, written := relay.written - {t});
      // The callback appends to the list of the cycle that created it, alive or not.
      if ok && relay.phase.Cycle? && t.cycle == relay.cycle
      then settled.(phase := Cycle(relay.phase.batch, relay.phase.next, relay.phase.delivered + [t.row])) else settled
    case Mark => relay.(phase := Marked(relay.phase.batch, relay.phase.delivered))
    case CommitCycle => relay.(phase := Resting)
    case Rollback => relay.(phase := Resting)
  }

  function Publish(outbox: map<string, OutboxRow>, delivered: seq<string>): map<string, OutboxRow> {
    map e | e in outbox :: if e in delivered then outbox[e].(status := Published) else outbox[e]
  }

  function OutboxAfter(outbox: map<string, OutboxRow>, relay: Relay, a: RelayAction): map<string, OutboxRow> {
    if a.CommitCycle? && relay.phase.Marked? then Publish(outbox, relay.phase.delivered) else outbox
  }

  function EventsAfter(outbox: map<string, OutboxRow>, events: seq<PaymentEvent>, a: RelayAction): seq<PaymentEvent> {
    if a.Write? && a.ticket.row in outbox then events + [EventOf(a.ticket.row, outbox[a.ticket.row])] else events
  }

  // -------------------------------------------------------------- ledger consumer

  /** An exception inside the retried unit: another attempt, or the dead-letter topic. */
  function AfterFailure(attempt: nat): Poster {
    if attempt < MAX_RETRIES then Posting(attempt + 1) else Parking
  }

  predicate HoldsIndex(p: Worker<Poster>, events: seq<PaymentEvent>, eventId: string) {
    p.Busy? && p.phase.Inserted? && p.pos < |events| && events[p.pos].eventId == eventId
  }

  /** Another open transaction holds this event id in the unique index: an insert would wait for it. */
  ghost predicate InsertBlocked(posters: map<string, Worker<Poster>>, events: seq<PaymentEvent>, k: string,
                                eventId: string) {
    exists o :: o in posters && o != k && HoldsIndex(posters[o], events, eventId)
  }

  predicate PostEnabled(ev: PaymentEvent, phase: Poster, h: PostAction) {
    match h
    case Decode(_) => phase.Decoding?
    case Refuse => phase.Posting? && !Supported(ev.currency)
    case Check => phase.Posting? && Supported(ev.currency)
    case Insert => phase.Inserting?
    case CommitPosting(_) => phase.Inserted?
    case Emit(_) => phase.Emitting?
    case Fail => phase.Posting? || phase.Inserting? || phase.Inserted? || phase.Emitting?
    case CommitOffset(_) => phase.Confirming?
    case CommitRefused => phase.Confirming?
    case Park(_) => phase.Parking?
    case CommitParked => phase.Parked?
  }

  /** `posted`: the books hold a committed entry for the event. */
  function PostNext(pos: nat, ev: PaymentEvent, posted: bool, phase: Poster, h: PostAction): Worker<Poster>
    requires PostEnabled(ev, phase, h)
  {
    match h
    case Decode(ok) => Busy(pos, if ok then Posting(0) else Parking)
    case Refuse => Busy(pos, Emitting(phase.attempt, Rejected, Reason(ev.currency)))
    case Check => Busy(pos, if posted then Emitting(phase.attempt, Posted, "") else Inserting(phase.attempt))
    // The loser of the insert rolls its whole transaction back, and still answers POSTED.
    case Insert => Busy(pos, if posted then Emitting(phase.attempt, Posted, "") else Inserted(phase.attempt))
    case CommitPosting(raised) => Busy(pos, if raised then AfterFailure(phase.attempt)
                                       else Emitting(phase.attempt, Posted, ""))
    case Emit(raised) => Busy(pos, if raised then AfterFailure(phase.attempt) else Confirming)
    case Fail => Busy(pos, AfterFailure(phase.attempt))
    case CommitOffset(raised) => if raised then Busy(pos, Parking) else Idle(pos + 1)
    case CommitRefused => Busy(pos, Parking)
    case Park(_) => Busy(pos, Parked)
    case CommitParked => Idle(pos + 1)
  }

  /** What handling a message does outside its own process. */
  function PostEffect(w: World, pos: nat, ev: PaymentEvent, phase: Poster, h: PostAction): World
    requires PostEnabled(ev, phase, h)
  {
    w.(books := if h.CommitPosting? then AddEntry(w.books, ev) else w.books,
       outcomes := if h.Emit? then w.outcomes + [MakeOutcome(ev, phase.status, phase.reason)] else w.outcomes,
       eventsCommitted := if h.CommitOffset? || h.CommitParked? then pos + 1 else w.eventsCommitted,
       eventsDlq := if h == Park(true) then w.eventsDlq + [ev] else w.eventsDlq,
       eventsDropped := if h == Park(false) then w.eventsDropped + {pos} else w.eventsDropped)
  }

  ghost predicate PosterEnabled(w: World, k: string, p: Worker<Poster>, a: WorkerAction<PostAction>) {
    match a
    case Start => !p.Busy?
    case Poll => p.Idle? && p.pos < |w.events|
    case Crash => true
    case Handle(h) =>
      && p.Busy? && p.pos < |w.events|
      && PostEnabled(w.events[p.pos], p.phase, h)
      && (h.Insert? ==> !InsertBlocked(w.posters, w.events, k, w.events[p.pos].eventId))
  }

  ghost function PosterNext(w: World, k: string, p: Worker<Poster>, a: WorkerAction<PostAction>): World
    requires PosterEnabled(w, k, p, a)
  {
    match a
    case Start => w.(posters := w.posters[k := Idle(w.eventsCommitted)])
    case Poll => w.(posters := w.posters[k := Busy(p.pos, Decoding)])
    case Crash => w.(posters := w.posters[k := Down])
    case Handle(h) =>
      var ev := w.events[p.pos];
      PostEffect(w, p.pos, ev, p.phase, h).(
        posters := w.posters[k := PostNext(p.pos, ev, IsPosted(w.books.entries, ev.eventId), p.phase, h)])
  }

  // ---------------------------------------------------------------- saga consumer

  function AfterStumble(attempt: nat): Compensator {
    if attempt < MAX_RETRIES then Compensating(attempt + 1) else Diverting
  }

  predicate SagaEnabled(phase: Compensator, h: SagaAction) {
    match h
    case Interpret(_) => phase.Reading?
    case Compensate(_) => phase.Compensating?
    case Stumble => phase.Compensating?
    case Acknowledge(_) => phase.Acknowledging?
    case AcknowledgeRefused => phase.Acknowledging?
    case Divert(_) => phase.Diverting?
    case AcknowledgeDiverted => phase.Diverted?
  }

  function SagaNext(pos: nat, phase: Compensator, h: SagaAction): Worker<Compensator>
    requires SagaEnabled(phase, h)
  {
    match h
    case Interpret(ok) => Busy(pos, if ok then Compensating(0) else Diverting)
    case Compensate(raised) => Busy(pos, if raised then AfterStumble(phase.attempt) else Acknowledging)
    case Stumble => Busy(pos, AfterStumble(phase.attempt))
    case Acknowledge(raised) => if raised then Busy(pos, Diverting) else Idle(pos + 1)
    case AcknowledgeRefused => Busy(pos, Diverting)
    case Divert(_) => Busy(pos, Diverted)
    case AcknowledgeDiverted => Idle(pos + 1)
  }

  /** The payments after handling an outcome: only a rejection compensates. */
  function PaymentsAfterOutcome(payments: map<string, Payment>, o: Outcome): map<string, Payment> {
    if o.status == Rejected then CompensatePayments(payments, o.paymentId) else payments
  }

  function SagaEffect(w: World, pos: nat, o: Outcome, h: SagaAction): World {
    w.(payments := if h.Compensate? then PaymentsAfterOutcome(w.payments, o) else w.payments,
       outcomesCommitted := if h.Acknowledge? || h.AcknowledgeDiverted? then pos + 1 else w.outcomesCommitted,
       outcomesDlq := if h == Divert(true) then w.outcomesDlq + [o] else w.outcomesDlq,
       outcomesDropped := if h == Divert(false) then w.outcomesDropped + {pos} else w.outcomesDropped)
  }

  predicate CompensatorEnabled(w: World, p: Worker<Compensator>, a: WorkerAction<SagaAction>) {
    match a
    case Start => !p.Busy?
    case Poll => p.Idle? && p.pos < |w.outcomes|
    case Crash => true
    case Handle(h) => p.Busy? && p.pos < |w.outcomes| && SagaEnabled(p.phase, h)
  }

  function CompensatorNext(w: World, k: string, p: Worker<Compensator>, a: WorkerAction<SagaAction>): World
    requires CompensatorEnabled(w, p, a)
  {
    match a
    case Start => w.(compensators := w.compensators[k := Idle(w.outcomesCommitted)])
    case Poll => w.(compensators := w.compensators[k := Busy(p.pos, Reading)])
    case Crash => w.(compensators := w.compensators[k := Down])
    case Handle(h) =>
      SagaEffect(w, p.pos, w.outcomes[p.pos], h).(compensators := w.compensators[k := SagaNext(p.pos, p.phase, h)])
  }

  // ------------------------------------------------------------------------ steps

  ghost predicate Enabled(w: World, a: Action) {
    match a
    case Authorize(pid, p) => CanAuthorize(w.payments, pid, p)
    case Capture(_, _, eventId, _) => eventId !in w.outbox
    case RelayStep(r, b) => RelayEnabled(w.outbox, w.relays, RelayOf(w, r), b)
    case PosterStep(k, b) => PosterEnabled(w, k, PosterOf(w, k), b)
    case SagaStep(k, b) => CompensatorEnabled(w, CompensatorOf(w, k), b)
  }

  ghost function Next(w: World, a: Action): World
    requires Enabled(w, a)
  {
    match a
    case Authorize(pid, p) => w.(payments := w.payments[pid := p])
    case Capture(tenant, pid, eventId, at) =>
      var t := CaptureTables(Tables(w.payments, w.outbox), tenant, pid, eventId, at);
      w.(payments := t.payments, outbox := t.outbox)
    case RelayStep(r, b) =>
      var relay := RelayOf(w, r);
      w.(outbox := OutboxAfter(w.outbox, relay, b),
         events := EventsAfter(w.outbox, w.events, b),
         relays := w.relays[r := RelayNext(w.outbox, w.relays, relay, b)])
    case PosterStep(k, b) => PosterNext(w, k, PosterOf(w, k), b)
    case SagaStep(k, b) => CompensatorNext(w, k, CompensatorOf(w, k), b)
  }

  /** A run is a sequence of enabled actions. */
  ghost predicate IsRun(w: World, run: seq<Action>)
    decreases |run|
  {
    run == [] || (Enabled(w, run[0]) && IsRun(Next(w, run[0]), run[1..]))
  }

  ghost function Exec(w: World, run: seq<Action>): World
    requires IsRun(w, run)
    decreases |run|
  {
    if run == [] then w else Exec(Next(w, run[0]), run[1..])
  }

  ghost predicate Reachable(w: World) {
    exists run :: IsRun(Init, run) && Exec(Init, run) == w
  }

  lemma {:induction false} RunConcat(w: World, a: seq<Action>, b: seq<Action>)
    requires IsRun(w, a) && IsRun(Exec(w, a), b)
    ensures IsRun(w, a + b) && Exec(w, a + b) == Exec(Exec(w, a), b)
    decreases |a|
  {
    hide Enabled, Next;
    if a == [] {
      assert a + b == b;
    } else {
      RunConcat(Next(w, a[0]), a[1..], b);
      assert (a + b)[1..] == a[1..] + b;
    }
  }

  lemma OneStep(w: World, a: Action)
    requires Enabled(w, a)
    ensures IsRun(w, [a]) && Exec(w, [a]) == Next(w, a)
  {
    assert [a][1..] == [];
    assert IsRun(Next(w, a), []);
  }

  lemma RunExtend(w: World, run: seq<Action>, a: Action)
    requires IsRun(w, run) && Enabled(Exec(w, run), a)
    ensures IsRun(w, run + [a]) && Exec(w, run + [a]) == Next(Exec(w, run), a)
  {
    OneStep(Exec(w, run), a);
    RunConcat(w, run, [a]);
  }

  lemma ReachableRun(w: World, run: seq<Action>)
    requires Reachable(w) && IsRun(w, run)
    ensures Reachable(Exec(w, run))
  {
    var before :| IsRun(Init, before) && Exec(Init, before) == w;
    RunConcat(Init, before, run);
    assert IsRun(Init, before + run);
  }

  /** The last action of a run, and the run before it. */
  lemma {:induction false} RunSplitLast(w: World, run: seq<Action>)
    requires IsRun(w, run) && run != []
    ensures var n := |run| - 1;
            && IsRun(w, run[..n])
            && Enabled(Exec(w, run[..n]), run[n])
            && Exec(w, run) == Next(Exec(w, run[..n]), run[n])
    decreases |run|
  {
    hide Enabled, Next;
    var n := |run| - 1;
    if n == 0 {
      assert run == [run[0]];
      assert run[1..] == [];
    } else {
      var w1 := Next(w, run[0]);
      RunSplitLast(w1, run[1..]);
      assert run[1..][..n - 1] == run[..n][1..];
      assert run[..n][0] == run[0];
    }
  }

  /** Prepending one action to a run. */
  lemma RunCons(w: World, a: Action, rest: seq<Action>)
    requires Enabled(w, a) && IsRun(Next(w, a), rest)
    ensures IsRun(w, [a] + rest) && Exec(w, [a] + rest) == Exec(Next(w, a), rest)
  {
    hide Enabled, Next;
    assert ([a] + rest)[1..] == rest;
  }
}
