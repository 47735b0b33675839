/**
 Progress without faults: how much work a state still holds, and that every fault-free step of one
 relay, one ledger consumer and one saga consumer, in any interleaving of their sub-steps, uses it up.
 */
module SagaProgress {
  import opened Prelude
  import opened Payments
  import opened Ledger
  import opened SagaMachine
  import opened SagaInvariant

  /** The processes at work: any number of relays and their batch size, a ledger consumer and a saga consumer. */
  datatype Crew = Crew(relays: seq<string>, poster: string, compensator: string, limit: nat)

  // ----------------------------------------------------------------- healthy steps

  predicate HealthyRelay(b: RelayAction, limit: nat) {
    match b
    case Lock(_, n) => n == limit
    case Report(_, ok) => ok
    case Rollback => false
    case _ => true
  }

  predicate HealthyPost(h: PostAction) {
    match h
    case Decode(ok) => ok
    case CommitPosting(raised) => !raised
    case Emit(raised) => !raised
    case CommitOffset(raised) => !raised
    case Refuse => true
    case Check => true
    case Insert => true
    case _ => false
  }

  predicate HealthySaga(h: SagaAction) {
    match h
    case Interpret(ok) => ok
    case Compensate(raised) => !raised
    case Acknowledge(raised) => !raised
    case _ => false
  }

  /** A step of the crew in which nothing fails, crashes or restarts. */
  predicate Healthy(c: Crew, a: Action) {
    match a
    case RelayStep(r, b) => r in c.relays && HealthyRelay(b, c.limit)
    case PosterStep(k, b) => k == c.poster && (b.Poll? || (b.Handle? && HealthyPost(b.step)))
    case SagaStep(s, b) => s == c.compensator && (b.Poll? || (b.Handle? && HealthySaga(b.step)))
    case _ => false
  }

  // ---------------------------------------------------------------- working states

  /** Every produced row of the running cycle is queued, written or delivered, and nothing older is about. */
  ghost predicate RelayInOrder(relay: Relay) {
    && (forall t :: t in relay.queued || t in relay.written ==> t.cycle == relay.cycle)
    && match relay.phase
       case Resting => relay.queued == {} && relay.written == {}
       case Cycle(batch, next, delivered) => batch != [] && next == |relay.queued| + |relay.written| + |delivered|
       case Marked(batch, delivered) =>
         batch != [] && relay.queued == {} && relay.written == {} && |delivered| == |batch|
  }

  predicate PosterInOrder(p: Worker<Poster>, committed: nat) {
    match p
    case Down => false
    case Idle(pos) => pos == committed
    case Busy(pos, phase) => pos == committed && !phase.Parking? && !phase.Parked?
  }

  predicate CompensatorInOrder(p: Worker<Compensator>, committed: nat) {
    match p
    case Down => false
    case Idle(pos) => pos == committed
    case Busy(pos, phase) => pos == committed && !phase.Diverting? && !phase.Diverted?
  }

  /** The crew is somewhere in the middle of fault-free work; nobody else holds a lock or an index entry. */
  ghost predicate Working(w: World, c: Crew) {
    && c.relays != [] && Distinct(c.relays)
    && (forall r :: r in w.relays && r !in c.relays ==> w.relays[r].phase == Resting)
    && (forall k :: k in w.posters && k != c.poster && w.posters[k].Busy? ==> !w.posters[k].phase.Inserted?)
    && (forall r :: r in c.relays ==> RelayInOrder(RelayIn(w.relays, r)))
    && PosterInOrder(PosterOf(w, c.poster), w.eventsCommitted)
    && CompensatorInOrder(CompensatorOf(w, c.compensator), w.outcomesCommitted)
  }

  // ------------------------------------------------------------------------ measure

  function PendingRows(outbox: map<string, OutboxRow>): set<string> {
    set e | e in outbox && outbox[e].status == Pending
  }

  /** Rows of the running cycle whose event is in the log although they are PENDING. */
  function Shipped(relay: Relay): nat {
    match relay.phase
    case Resting => 0
    case Cycle(_, _, delivered) => |relay.written| + |delivered|
    case Marked(_, delivered) => |delivered|
  }

  /** The sum of a number over some relays. */
  function Total(f: Relay -> nat, relays: map<string, Relay>, names: seq<string>): nat {
    if names == [] then 0
    else Total(f, relays, names[..|names| - 1]) + f(RelayIn(relays, names[|names| - 1]))
  }

  /** One relay's move changes a sum by its own part alone. */
  lemma {:induction false} TotalMoves(f: Relay -> nat, relays: map<string, Relay>, names: seq<string>, r: string,
                                      relay: Relay)
    requires Distinct(names)
    ensures Total(f, relays[r := relay], names) ==
      if r in names then Total(f, relays, names) - f(RelayIn(relays, r)) + f(relay) else Total(f, relays, names)
  {
    if names != [] {
      var init, last := names[..|names| - 1], names[|names| - 1];
      assert last !in init && forall n :: n in names <==> n in init || n == last;
      TotalMoves(f, relays, init, r, relay);
    }
  }

  lemma {:induction false} TotalOfNothing(f: Relay -> nat, relays: map<string, Relay>, names: seq<string>)
    requires forall r :: r in names ==> f(RelayIn(relays, r)) == 0
    ensures Total(f, relays, names) == 0
  {
    if names != [] {
      TotalOfNothing(f, relays, names[..|names| - 1]);
    }
  }

  /** The outcome of the message in hand is emitted although its offset is not committed. */
  function Answered(p: Worker<Poster>): nat {
    if p.Busy? && p.phase.Confirming? then 1 else 0
  }

  /**
   What is still to be done: publish each PENDING row; handle each event that is unread or still to
   be shipped; handle each outcome that is unread or still to be emitted.
   */
  function Work(w: World, c: Crew): int {
    var pending, shipped := |PendingRows(w.outbox)|, Total(Shipped, w.relays, c.relays);
    var events, answered := |w.events| - w.eventsCommitted, Answered(PosterOf(w, c.poster));
    pending + (pending - shipped + events) +
      (pending - shipped + events - answered + |w.outcomes| - w.outcomesCommitted)
  }

  /** What a step gets done: the rows a cycle publishes, or one message handled. */
  function Done(w: World, c: Crew, a: Action): nat {
    match a
    case RelayStep(r, CommitCycle) => |BatchOf(RelayOf(w, r).phase)|
    case PosterStep(_, Handle(CommitOffset(_))) => 1
    case SagaStep(_, Handle(Acknowledge(_))) => 1
    case _ => 0
  }

  /** Steps taken since the last thing done: by a relay, ... */
  function RelaySteps(relay: Relay): nat {
    match relay.phase
    case Resting => 0
    case Cycle(_, next, delivered) => 1 + next + |relay.written| + 2 * |delivered|
    case Marked(_, delivered) => 2 + 3 * |delivered|
  }

  /** ... by the ledger consumer, ... */
  function PosterSteps(p: Worker<Poster>): nat {
    if !p.Busy? then 0
    else
      match p.phase
      case Decoding => 1
      case Posting(_) => 2
      case Inserting(_) => 3
      case Inserted(_) => 4
      case Emitting(_, _, _) => 5
      case _ => 6
  }

  /** ... and by the saga consumer. */
  function CompensatorSteps(p: Worker<Compensator>): nat {
    if !p.Busy? then 0
    else
      match p.phase
      case Reading => 1
      case Compensating(_) => 2
      case _ => 3
  }

  /** A bound on the steps that are left. */
  function StepsLeft(w: World, c: Crew): int {
    7 * Work(w, c) - Total(RelaySteps, w.relays, c.relays) - PosterSteps(PosterOf(w, c.poster))
    - CompensatorSteps(CompensatorOf(w, c.compensator))
  }

  ghost predicate SameDeadLetters(w: World, w': World) {
    && w'.eventsDlq == w.eventsDlq && w'.outcomesDlq == w.outcomesDlq
    && w'.eventsDropped == w.eventsDropped && w'.outcomesDropped == w.outcomesDropped
  }

  // -------------------------------------------------------------------------- relay

  /** Committing a cycle publishes its whole batch. */
  lemma PublishesBatch(outbox: map<string, OutboxRow>, batch: seq<string>, delivered: seq<string>)
    requires Distinct(batch) && Distinct(delivered) && |delivered| == |batch|
    requires forall d :: d in delivered ==> d in batch
    requires forall e :: e in batch ==> e in outbox && outbox[e].status == Pending
    ensures |PendingRows(Publish(outbox, delivered))| == |PendingRows(outbox)| - |batch|
  {
    DistinctCount(delivered);
    assert Elements(delivered) <= PendingRows(outbox);
    assert PendingRows(Publish(outbox, delivered)) == PendingRows(outbox) - Elements(delivered);
  }

  /** What a relay step does to the numbers the measure counts. */
  ghost predicate Advanced(outbox: map<string, OutboxRow>, relay: Relay, a: RelayAction, relay': Relay) {
    && RelayInOrder(relay')
    && RelaySteps(relay') == (if a.CommitCycle? then 0 else RelaySteps(relay) + 1)
    && Shipped(relay') == (if a.CommitCycle? then 0 else Shipped(relay) + if a.Write? then 1 else 0)
    && |PendingRows(OutboxAfter(outbox, relay, a))| ==
      |PendingRows(outbox)| - (if a.CommitCycle? then |BatchOf(relay.phase)| else 0)
    && (a.CommitCycle? ==>
        RelaySteps(relay) == 2 + 3 * |BatchOf(relay.phase)| && Shipped(relay) == |BatchOf(relay.phase)| > 0)
  }

  /** Queueing the next row's ticket. */
  lemma ProduceCounts(relay: Relay, t: Ticket)
    requires RelayInOrder(relay) && relay.phase.Cycle? && t !in relay.queued && t.cycle == relay.cycle
    ensures var phase := Cycle(relay.phase.batch, relay.phase.next + 1, relay.phase.delivered);
      var relay' := Relay(relay.cycle, phase, relay.queued + {t}, relay.written);
      RelayInOrder(relay') && RelaySteps(relay') == RelaySteps(relay) + 1 && Shipped(relay') == Shipped(relay)
  {
    assert |relay.queued + {t}| == |relay.queued| + 1;
  }

  lemma ProduceAdvances(outbox: map<string, OutboxRow>, relays: map<string, Relay>, events: seq<PaymentEvent>,
                        relay: Relay)
    requires RelaySound(outbox, events, relay) && RelayInOrder(relay) && RelayEnabled(outbox, relays, relay, Produce)
    requires forall e :: e in outbox ==> outbox[e].eventType == PAYMENT_CAPTURED
    ensures Advanced(outbox, relay, Produce, RelayNext(outbox, relays, relay, Produce))
  {
    hide PendingRows, DeliveredSound;
    var t := Ticket(relay.cycle, relay.phase.batch[relay.phase.next]);
    assert t !in relay.queued;
    var phase := Cycle(relay.phase.batch, relay.phase.next + 1, relay.phase.delivered);
    assert RelayNext(outbox, relays, relay, Produce) == Relay(relay.cycle, phase, relay.queued + {t}, relay.written);
    hide RelaySound, RelayEnabled, RelayNext;
    ProduceCounts(relay, t);
    hide RelayInOrder, RelaySteps, Shipped;
  }

  /** Moving a ticket from the queue to the written ones. */
  lemma WriteCounts(relay: Relay, t: Ticket)
    requires RelayInOrder(relay) && t in relay.queued && t !in relay.written
    ensures var relay' := Relay(relay.cycle, relay.phase, relay.queued - {t}, relay.written + {t});
      RelayInOrder(relay') && RelaySteps(relay') == RelaySteps(relay) + 1 && Shipped(relay') == Shipped(relay) + 1
  {
    assert |relay.queued - {t}| == |relay.queued| - 1 && |relay.written + {t}| == |relay.written| + 1;
  }

  lemma WriteAdvances(outbox: map<string, OutboxRow>, relays: map<string, Relay>, events: seq<PaymentEvent>,
                      relay: Relay, t: Ticket)
    requires RelaySound(outbox, events, relay) && RelayInOrder(relay) && RelayEnabled(outbox, relays, relay, Write(t))
    ensures Advanced(outbox, relay, Write(t), RelayNext(outbox, relays, relay, Write(t)))
  {
    assert t in relay.queued && t !in relay.written;
    assert RelayNext(outbox, relays, relay, Write(t)) ==
      Relay(relay.cycle, relay.phase, relay.queued - {t}, relay.written + {t});
    hide PendingRows, RelaySound, RelayEnabled, RelayNext;
    WriteCounts(relay, t);
    hide RelayInOrder, RelaySteps, Shipped;
  }

  /** Turning a written ticket into a delivered row. */
  lemma ReportCounts(relay: Relay, t: Ticket)
    requires RelayInOrder(relay) && relay.phase.Cycle? && t in relay.written
    ensures var phase := Cycle(relay.phase.batch, relay.phase.next, relay.phase.delivered + [t.row]);
      var relay' := Relay(relay.cycle, phase, relay.queued, relay.written - {t});
      RelayInOrder(relay') && RelaySteps(relay') == RelaySteps(relay) + 1 && Shipped(relay') == Shipped(relay)
  {
    assert |relay.written - {t}| == |relay.written| - 1;
  }

  lemma ReportAdvances(outbox: map<string, OutboxRow>, relays: map<string, Relay>, events: seq<PaymentEvent>,
                       relay: Relay, t: Ticket)
    requires RelaySound(outbox, events, relay) && RelayInOrder(relay)
    requires RelayEnabled(outbox, relays, relay, Report(t, true))
    ensures Advanced(outbox, relay, Report(t, true), RelayNext(outbox, relays, relay, Report(t, true)))
  {
    hide PendingRows, BatchSound, DeliveredSound;
    assert t in relay.written && t.cycle == relay.cycle && t !in relay.queued && relay.queued - {t} == relay.queued;
    var phase := Cycle(relay.phase.batch, relay.phase.next, relay.phase.delivered + [t.row]);
    assert RelayNext(outbox, relays, relay, Report(t, true)) ==
      Relay(relay.cycle, phase, relay.queued, relay.written - {t});
    hide RelaySound, RelayEnabled, RelayNext;
    ReportCounts(relay, t);
    hide RelayInOrder, RelaySteps, Shipped;
  }

  lemma CommitAdvances(outbox: map<string, OutboxRow>, relays: map<string, Relay>, events: seq<PaymentEvent>,
                       relay: Relay)
    requires RelaySound(outbox, events, relay) && RelayInOrder(relay)
    requires RelayEnabled(outbox, relays, relay, CommitCycle)
    ensures Advanced(outbox, relay, CommitCycle, RelayNext(outbox, relays, relay, CommitCycle))
  {
    PublishesBatch(outbox, relay.phase.batch, relay.phase.delivered);
    hide PendingRows, RelaySound, Publish;
  }

  /** Every healthy relay step advances. */
  lemma RelayAdvances(outbox: map<string, OutboxRow>, relays: map<string, Relay>, events: seq<PaymentEvent>,
                      relay: Relay, a: RelayAction, limit: nat)
    requires RelaySound(outbox, events, relay) && RelayInOrder(relay) && RelayEnabled(outbox, relays, relay, a)
    requires HealthyRelay(a, limit)
    requires forall e :: e in outbox ==> outbox[e].eventType == PAYMENT_CAPTURED
    ensures Advanced(outbox, relay, a, RelayNext(outbox, relays, relay, a))
  {
    hide RelaySound, PendingRows;
    match a
    case Produce => ProduceAdvances(outbox, relays, events, relay);
    case Write(t) => WriteAdvances(outbox, relays, events, relay, t);
    case Report(t, _) => ReportAdvances(outbox, relays, events, relay, t);
    case CommitCycle => CommitAdvances(outbox, relays, events, relay);
    case Mark => assert relay.queued == {} && relay.written == {};
    case _ =>
  }

  /** A cycle never counts more rows shipped or steps taken than its PENDING batch allows. */
  lemma RelayWithinBatch(outbox: map<string, OutboxRow>, events: seq<PaymentEvent>, relay: Relay)
    requires RelaySound(outbox, events, relay) && RelayInOrder(relay)
    ensures Shipped(relay) <= |BatchOf(relay.phase)| <= |PendingRows(outbox)|
    ensures !relay.phase.Resting? ==> |BatchOf(relay.phase)| >= 1
    ensures RelaySteps(relay) <= (if relay.phase.Resting? then 0 else 2 + 3 * |BatchOf(relay.phase)|)
  {
    DistinctCount(BatchOf(relay.phase));
    assert Elements(BatchOf(relay.phase)) <= PendingRows(outbox);
    SubsetCount(Elements(BatchOf(relay.phase)), PendingRows(outbox));
  }

  lemma SubsetCount(a: set<string>, b: set<string>)
    requires a <= b
    ensures |a| <= |b|
  {
    assert b == a + (b - a);
  }

  // -------------------------------------------------------------------- world steps

  /** A step that uses up exactly what it gets done, and leaves fewer steps to take. */
  ghost predicate Progresses(w: World, c: Crew, a: Action, w': World) {
    && Working(w', c)
    && Work(w', c) + Done(w, c, a) == Work(w, c)
    && StepsLeft(w', c) < StepsLeft(w, c)
    && SameDeadLetters(w, w')
  }

  lemma RelayStepProgresses(w: World, c: Crew, r: string, b: RelayAction)
    requires Inv(w) && Working(w, c) && Enabled(w, RelayStep(r, b)) && r in c.relays && HealthyRelay(b, c.limit)
    ensures Progresses(w, c, RelayStep(r, b), Next(w, RelayStep(r, b)))
  {
    hide Inv, Working, RelayEnabled, RelayNext, OutboxAfter, EventsAfter, Advanced, Progresses;
    var relay := RelayOf(w, r);
    CrewRelayAdvances(w, c, r, b);
    var relay' := RelayNext(w.outbox, w.relays, relay, b);
    WorldAdvances(w, c, r, b, relay', OutboxAfter(w.outbox, relay, b), EventsAfter(w.outbox, w.events, b));
  }

  lemma CrewRelayAdvances(w: World, c: Crew, r: string, b: RelayAction)
    requires Inv(w) && Working(w, c) && r in c.relays && HealthyRelay(b, c.limit)
    requires RelayEnabled(w.outbox, w.relays, RelayOf(w, r), b)
    ensures Advanced(w.outbox, RelayOf(w, r), b, RelayNext(w.outbox, w.relays, RelayOf(w, r), b))
    ensures |EventsAfter(w.outbox, w.events, b)| == |w.events| + (if b.Write? then 1 else 0)
  {
    hide Working, RelayNext, Advanced;
    AllRowsHaveSchema(w);
    CrewRelayInOrder(w, c, r);
    assert b.Write? ==> b.ticket.row in w.outbox;
    hide Inv, RelaySound, RelayInOrder, RelayEnabled;
    RelayAdvances(w.outbox, w.relays, w.events, RelayOf(w, r), b, c.limit);
  }

  lemma AllRowsHaveSchema(w: World)
    requires Inv(w)
    ensures forall e :: e in w.outbox ==> w.outbox[e].eventType == PAYMENT_CAPTURED
  {
    assert forall e :: e in w.outbox ==> RowMatches(w.payments, w.outbox[e]);
  }

  lemma CrewRelayInOrder(w: World, c: Crew, r: string)
    requires Inv(w) && Working(w, c) && r in c.relays
    ensures RelaySound(w.outbox, w.events, RelayOf(w, r)) && RelayInOrder(RelayOf(w, r))
  {
    hide PaymentsSound, EventsSound, BooksSound, OutcomesSound, PostersSound, CompensatorsSound, RelayInOrder;
  }

  lemma WorldAdvances(w: World, c: Crew, r: string, b: RelayAction, relay': Relay, outbox: map<string, OutboxRow>,
                      events: seq<PaymentEvent>)
    requires Working(w, c) && r in c.relays && Advanced(w.outbox, RelayOf(w, r), b, relay')
    requires outbox == OutboxAfter(w.outbox, RelayOf(w, r), b)
    requires |events| == |w.events| + (if b.Write? then 1 else 0)
    ensures Progresses(w, c, RelayStep(r, b),
                       w.(outbox := outbox, events := events, relays := w.relays[r := relay']))
  {
    hide RelayInOrder, PendingRows, OutboxAfter, RelaySteps, Shipped, PosterInOrder, CompensatorInOrder,
      PosterSteps, CompensatorSteps, Answered, Total;
    var w' := w.(outbox := outbox, events := events, relays := w.relays[r := relay']);
    assert PosterOf(w', c.poster) == PosterOf(w, c.poster);
    TotalMoves(Shipped, w.relays, c.relays, r, relay');
    TotalMoves(RelaySteps, w.relays, c.relays, r, relay');
    assert Working(w', c) by {
      forall s | s in c.relays ensures RelayInOrder(RelayIn(w'.relays, s)) {
        assert s != r ==> RelayIn(w'.relays, s) == RelayIn(w.relays, s);
      }
    }
  }

  /** How a healthy sub-step moves the ledger consumer. */
  lemma PosterPhaseMoves(pos: nat, ev: PaymentEvent, posted: bool, phase: Poster, h: PostAction, committed: nat)
    requires PostEnabled(ev, phase, h) && HealthyPost(h) && PosterInOrder(Busy(pos, phase), committed)
    ensures var p, p' := Busy(pos, phase), PostNext(pos, ev, posted, phase, h);
      && PosterInOrder(p', if h.CommitOffset? then pos + 1 else committed)
      && (if h.CommitOffset? then PosterSteps(p') == 0 && PosterSteps(p) == 6 && Answered(p) == 1
          else PosterSteps(p') > PosterSteps(p) && Answered(p) == 0)
      && Answered(p') == (if h.Emit? then 1 else 0)
  {
  }

  /** A healthy sub-step of the ledger consumer changes its own state, the books, the outcomes and the offset. */
  lemma PosterWorldMoves(w: World, c: Crew, h: PostAction, p': Worker<Poster>, books: Books, outcomes: seq<Outcome>,
                         committed: nat)
    requires Working(w, c) && PosterOf(w, c.poster).Busy? && HealthyPost(h)
    requires committed == (if h.CommitOffset? then w.eventsCommitted + 1 else w.eventsCommitted)
    requires |outcomes| == |w.outcomes| + (if h.Emit? then 1 else 0)
    requires PosterInOrder(p', committed)
    requires var p := PosterOf(w, c.poster);
      && (if h.CommitOffset? then PosterSteps(p') == 0 && PosterSteps(p) == 6 && Answered(p) == 1
          else PosterSteps(p') > PosterSteps(p) && Answered(p) == 0)
      && Answered(p') == (if h.Emit? then 1 else 0)
    ensures Progresses(w, c, PosterStep(c.poster, Handle(h)),
                       w.(books := books, outcomes := outcomes, eventsCommitted := committed,
                          posters := w.posters[c.poster := p']))
  {
    hide RelayInOrder, PendingRows, RelaySteps, Shipped, CompensatorInOrder, CompensatorSteps, PosterInOrder;
    hide PosterSteps, Answered;
    var w' := w.(books := books, outcomes := outcomes, eventsCommitted := committed,
                 posters := w.posters[c.poster := p']);
    assert PosterOf(w', c.poster) == p';
  }

  lemma PosterPollProgresses(w: World, c: Crew)
    requires Working(w, c) && Enabled(w, PosterStep(c.poster, Poll))
    ensures Progresses(w, c, PosterStep(c.poster, Poll), Next(w, PosterStep(c.poster, Poll)))
  {
    hide RelayInOrder, PendingRows, RelaySteps, Shipped, CompensatorInOrder, CompensatorSteps;
  }

  lemma PosterStepProgresses(w: World, c: Crew, b: WorkerAction<PostAction>)
    requires Working(w, c) && Enabled(w, PosterStep(c.poster, b)) && Healthy(c, PosterStep(c.poster, b))
    ensures Progresses(w, c, PosterStep(c.poster, b), Next(w, PosterStep(c.poster, b)))
  {
    if b.Poll? {
      PosterPollProgresses(w, c);
    } else {
      var p, h := PosterOf(w, c.poster), b.step;
      var ev := w.events[p.pos];
      var posted := IsPosted(w.books.entries, ev.eventId);
      var p' := PostNext(p.pos, ev, posted, p.phase, h);
      PosterPhaseMoves(p.pos, ev, posted, p.phase, h, w.eventsCommitted);
      hide IsPosted, InsertBlocked, Working, PostNext, PostEnabled, AddEntry, MakeOutcome, PosterInOrder, PosterSteps;
      hide Answered, Progresses;
      var books := if h.CommitPosting? then AddEntry(w.books, ev) else w.books;
      var outcomes := if h.Emit? then w.outcomes + [MakeOutcome(ev, p.phase.status, p.phase.reason)] else w.outcomes;
      var committed := if h.CommitOffset? then p.pos + 1 else w.eventsCommitted;
      assert Next(w, PosterStep(c.poster, b)) ==
             w.(books := books, outcomes := outcomes, eventsCommitted := committed,
                posters := w.posters[c.poster := p']);
      hide Enabled, Next;
      assert committed ==
        (if h.CommitOffset? then w.eventsCommitted + 1 else w.eventsCommitted) by { PosterAtOffset(w, c); }
      PosterWorldMoves(w, c, h, p', books, outcomes, committed);
    }
  }

  lemma PosterAtOffset(w: World, c: Crew)
    requires Working(w, c) && PosterOf(w, c.poster).Busy?
    ensures PosterOf(w, c.poster).pos == w.eventsCommitted
  {
  }

  lemma CompensatorStepProgresses(w: World, c: Crew, b: WorkerAction<SagaAction>)
    requires Inv(w) && Working(w, c)
    requires Enabled(w, SagaMachine.SagaStep(c.compensator, b)) && Healthy(c, SagaMachine.SagaStep(c.compensator, b))
    ensures Progresses(w, c, SagaMachine.SagaStep(c.compensator, b), Next(w, SagaMachine.SagaStep(c.compensator, b)))
  {
    hide Inv, RelayInOrder, PendingRows, RelaySteps, Shipped, PosterInOrder, PosterSteps, Answered;
    hide PaymentsAfterOutcome;
  }

  /** Every healthy step, whichever process takes it, makes progress. */
  lemma HealthyStepProgresses(w: World, c: Crew, a: Action)
    requires Inv(w) && Working(w, c) && Enabled(w, a) && Healthy(c, a)
    ensures Progresses(w, c, a, Next(w, a))
  {
    hide Inv, Working, Enabled, Next, Progresses;
    match a
    case RelayStep(r, b) => RelayStepProgresses(w, c, r, b);
    case PosterStep(_, b) => PosterStepProgresses(w, c, b);
    case SagaStep(_, b) => CompensatorStepProgresses(w, c, b);
    case _ =>
  }

  lemma PosterWithin(w: World, c: Crew)
    requires Inv(w) && Working(w, c)
    ensures var p, unread := PosterOf(w, c.poster), |w.events| - w.eventsCommitted;
      && 0 <= Answered(p) <= 1 && 0 <= PosterSteps(p) <= 6
      && (if unread >= 1 then true else unread == 0 && Answered(p) == 0 && PosterSteps(p) == 0)
  {
    hide PaymentsSound, EventsSound, RelaysSound, BooksSound, OutcomesSound, CompensatorsSound, RelayInOrder;
    hide CompensatorInOrder;
    assert PosterOf(w, c.poster).Busy? ==> PosterSound(w, PosterOf(w, c.poster));
    assert w.eventsCommitted <= |w.events|;
  }

  lemma CompensatorWithin(w: World, c: Crew)
    requires Inv(w) && Working(w, c)
    ensures var p, unread := CompensatorOf(w, c.compensator), |w.outcomes| - w.outcomesCommitted;
      && 0 <= CompensatorSteps(p) <= 3 && (if unread >= 1 then true else unread == 0 && CompensatorSteps(p) == 0)
  {
    hide PaymentsSound, EventsSound, RelaysSound, BooksSound, OutcomesSound, PostersSound, RelayInOrder, PosterInOrder;
    assert CompensatorOf(w, c.compensator).Busy? ==> CompensatorSound(w, CompensatorOf(w, c.compensator));
    assert w.outcomesCommitted <= |w.outcomes|;
  }

  function BatchSize(relay: Relay): nat {
    |BatchOf(relay.phase)|
  }

  /** The rows that some relays hold. */
  function HeldBy(relays: map<string, Relay>, names: seq<string>): set<string> {
    set r, e | r in names && e in BatchOf(RelayIn(relays, r).phase) :: e
  }

  /** What some relays count together is within the PENDING rows they hold. */
  ghost predicate Fits(outbox: map<string, OutboxRow>, relays: map<string, Relay>, names: seq<string>) {
    && |HeldBy(relays, names)| == Total(BatchSize, relays, names)
    && HeldBy(relays, names) <= PendingRows(outbox)
    && Total(Shipped, relays, names) <= Total(BatchSize, relays, names)
    && Total(RelaySteps, relays, names) <= 5 * Total(BatchSize, relays, names)
  }

  lemma FitsOneMore(outbox: map<string, OutboxRow>, relays: map<string, Relay>, names: seq<string>)
    requires names != [] && Fits(outbox, relays, names[..|names| - 1])
    requires var init, relay := names[..|names| - 1], RelayIn(relays, names[|names| - 1]);
      var more := Elements(BatchOf(relay.phase));
      && HeldBy(relays, names) == HeldBy(relays, init) + more && HeldBy(relays, init) !! more
      && more <= PendingRows(outbox) && |more| == BatchSize(relay)
      && Shipped(relay) <= BatchSize(relay) && RelaySteps(relay) <= 5 * BatchSize(relay)
    ensures Fits(outbox, relays, names)
  {
    hide PendingRows, HeldBy, RelaySteps, Shipped, BatchSize, Elements;
  }

  /** Batches are disjoint, so all relays together fit. */
  lemma {:induction false} BatchesFit(outbox: map<string, OutboxRow>, events: seq<PaymentEvent>,
                                      relays: map<string, Relay>, names: seq<string>)
    requires Distinct(names) && DisjointBatches(relays)
    requires forall r :: r in names ==> var relay := RelayIn(relays, r);
      RelaySound(outbox, events, relay) && RelayInOrder(relay)
    ensures Fits(outbox, relays, names)
  {
    if names == [] {
      assert HeldBy(relays, names) == {};
    } else {
      hide Fits, RelaySound, RelayInOrder, PendingRows, HeldBy, RelaySteps, Shipped, DisjointBatches, Elements;
      var init, last := names[..|names| - 1], names[|names| - 1];
      var relay := RelayIn(relays, last);
      assert last !in init && forall n :: n in names <==> n in init || n == last;
      BatchesFit(outbox, events, relays, init);
      RelayWithinBatch(outbox, events, relay);
      BatchIsPending(outbox, events, relay);
      DistinctCount(BatchOf(relay.phase));
      HeldByOneMore(relays, init, last, names);
      FitsOneMore(outbox, relays, names);
    }
  }

  lemma BatchIsPending(outbox: map<string, OutboxRow>, events: seq<PaymentEvent>, relay: Relay)
    requires RelaySound(outbox, events, relay)
    ensures Distinct(BatchOf(relay.phase)) && Elements(BatchOf(relay.phase)) <= PendingRows(outbox)
  {
  }

  lemma HeldByOneMore(relays: map<string, Relay>, init: seq<string>, last: string, names: seq<string>)
    requires DisjointBatches(relays) && last !in init && names == init + [last]
    ensures var more := Elements(BatchOf(RelayIn(relays, last).phase));
      && HeldBy(relays, names) == HeldBy(relays, init) + more
      && HeldBy(relays, init) !! more
  {
    forall e | e in HeldBy(relays, init) ensures e !in BatchOf(RelayIn(relays, last).phase) {
      var r :| r in init && e in BatchOf(RelayIn(relays, r).phase);
      assert r != last && r in relays;
    }
    forall e ensures e in HeldBy(relays, names) <==>
      e in HeldBy(relays, init) || e in Elements(BatchOf(RelayIn(relays, last).phase))
    {
      assert forall n :: n in names <==> n in init || n == last;
    }
  }

  /** There are never fewer than no steps left. */
  lemma StepsLeftBounds(w: World, c: Crew)
    requires Inv(w) && Working(w, c)
    ensures 0 <= StepsLeft(w, c) <= 7 * Work(w, c)
    ensures Work(w, c) >= 0
  {
    RelaysWithin(w, c);
    PosterWithin(w, c);
    CompensatorWithin(w, c);
    hide Inv, Working, PendingRows, RelaySteps, Shipped, PosterSteps, CompensatorSteps, Total;
    hide Answered;
  }

  lemma RelaysWithin(w: World, c: Crew)
    requires Inv(w) && Working(w, c)
    ensures Total(Shipped, w.relays, c.relays) <= |PendingRows(w.outbox)|
    ensures Total(RelaySteps, w.relays, c.relays) <= 5 * |PendingRows(w.outbox)|
  {
    forall r | r in c.relays ensures RelaySound(w.outbox, w.events, RelayIn(w.relays, r)) {
      FreshIsSound(w.outbox, w.events);
    }
    assert DisjointBatches(w.relays);
    hide Inv, RelaySound, RelayInOrder, PendingRows, RelaySteps, Shipped, Total;
    BatchesFit(w.outbox, w.events, w.relays, c.relays);
    SubsetCount(HeldBy(w.relays, c.relays), PendingRows(w.outbox));
  }

  lemma FreshIsSound(outbox: map<string, OutboxRow>, events: seq<PaymentEvent>)
    ensures RelaySound(outbox, events, FreshRelay)
  {
  }

  // ------------------------------------------------------------------- no deadlock

  ghost predicate NothingLeft(w: World) {
    && PendingRows(w.outbox) == {}
    && w.eventsCommitted == |w.events|
    && w.outcomesCommitted == |w.outcomes|
  }

  ghost predicate AtRest(w: World, c: Crew) {
    && (forall r :: r in c.relays ==> RelayIn(w.relays, r).phase.Resting?)
    && PosterOf(w, c.poster).Idle? && CompensatorOf(w, c.compensator).Idle?
  }

  lemma {:induction false} OldestRow(outbox: map<string, OutboxRow>, rows: set<string>) returns (e: string)
    requires rows != {} && forall x :: x in rows ==> x in outbox
    ensures e in rows && forall x :: x in rows ==> outbox[e].createdAt <= outbox[x].createdAt
    decreases |rows|
  {
    e :| e in rows;
    var others := rows - {e};
    if others != {} {
      var f := OldestRow(outbox, others);
      if outbox[f].createdAt < outbox[e].createdAt {
        e := f;
      }
      forall x | x in rows ensures outbox[e].createdAt <= outbox[x].createdAt {
        assert x in others || x !in others;
      }
    }
  }

  /** The first `limit` of some rows by age, or all of them when there are fewer. */
  ghost predicate FirstByAge(outbox: map<string, OutboxRow>, rows: set<string>, batch: seq<string>, limit: nat)
    requires forall x :: x in rows ==> x in outbox
  {
    && |batch| <= limit && Distinct(batch) && (forall e :: e in batch ==> e in rows)
    && (forall i, j :: 0 <= i < j < |batch| ==> outbox[batch[i]].createdAt <= outbox[batch[j]].createdAt)
    && (forall x :: x in rows && x !in batch ==>
          |batch| == limit && forall i :: 0 <= i < |batch| ==> outbox[batch[i]].createdAt <= outbox[x].createdAt)
  }

  /** The locking query always has an answer. */
  lemma {:induction false} OldestRows(outbox: map<string, OutboxRow>, rows: set<string>, limit: nat)
    returns (batch: seq<string>)
    requires forall x :: x in rows ==> x in outbox
    ensures FirstByAge(outbox, rows, batch, limit)
    ensures rows != {} && limit > 0 ==> batch != []
    decreases limit
  {
    if rows == {} || limit == 0 {
      batch := [];
    } else {
      var e := OldestRow(outbox, rows);
      var rest := OldestRows(outbox, rows - {e}, limit - 1);
      batch := [e] + rest;
      assert forall x :: x in rows && x !in batch ==> x in rows - {e} && x !in rest;
    }
  }

  /** With no batch held anywhere, exactly the PENDING rows can be claimed. */
  lemma ClaimableIsPending(outbox: map<string, OutboxRow>, relays: map<string, Relay>, e: string)
    requires forall r :: r in relays ==> relays[r].phase.Resting?
    ensures Claimable(outbox, relays, e) <==> e in PendingRows(outbox)
  {
  }

  lemma OldestOfClaimable(outbox: map<string, OutboxRow>, relays: map<string, Relay>, batch: seq<string>, limit: nat)
    requires forall e :: e in PendingRows(outbox) ==> e in outbox
    requires FirstByAge(outbox, PendingRows(outbox), batch, limit) && batch != []
    requires forall e :: Claimable(outbox, relays, e) <==> e in PendingRows(outbox)
    ensures IsOldestBatch(outbox, relays, batch, limit)
  {
    hide Claimable, PendingRows;
  }

  lemma SomeLock(w: World, c: Crew) returns (b: RelayAction)
    requires Working(w, c) && c.limit > 0 && PendingRows(w.outbox) != {}
    requires forall r :: r in c.relays ==> RelayIn(w.relays, r).phase.Resting?
    ensures c.relays != [] && RelayEnabled(w.outbox, w.relays, RelayOf(w, c.relays[0]), b) && HealthyRelay(b, c.limit)
  {
    assert forall r :: r in w.relays ==> RelayIn(w.relays, r) == w.relays[r] && w.relays[r].phase.Resting?;
    hide Working;
    var batch := OldestRows(w.outbox, PendingRows(w.outbox), c.limit);
    forall e ensures Claimable(w.outbox, w.relays, e) <==> e in PendingRows(w.outbox) {
      ClaimableIsPending(w.outbox, w.relays, e);
    }
    hide Claimable, FirstByAge;
    OldestOfClaimable(w.outbox, w.relays, batch, c.limit);
    hide IsOldestBatch, PendingRows;
    b := Lock(batch, c.limit);
  }

  /** Inside a cycle some sub-step is always possible. */
  lemma SomeCycleStep(outbox: map<string, OutboxRow>, relays: map<string, Relay>, relay: Relay, limit: nat)
    returns (b: RelayAction)
    requires RelayInOrder(relay) && !relay.phase.Resting?
    requires forall e :: e in BatchOf(relay.phase) ==> e in outbox
    requires forall t :: t in relay.queued ==> t.row in outbox
    requires relay.phase.Cycle? ==> relay.phase.next <= |relay.phase.batch|
    ensures RelayEnabled(outbox, relays, relay, b) && HealthyRelay(b, limit)
  {
    if t :| t in relay.queued {
      b := Write(t);
    } else if t :| t in relay.written {
      b := Report(t, true);
    } else if relay.phase.Marked? {
      b := CommitCycle;
    } else if relay.phase.next < |relay.phase.batch| {
      b := Produce;
    } else {
      b := Mark;
    }
  }

  lemma SomeRelayStep(w: World, c: Crew, r: string) returns (b: RelayAction)
    requires Inv(w) && Working(w, c) && r in c.relays && !RelayIn(w.relays, r).phase.Resting?
    ensures RelayEnabled(w.outbox, w.relays, RelayOf(w, r), b) && HealthyRelay(b, c.limit)
  {
    var relay := RelayOf(w, r);
    assert RelaySound(w.outbox, w.events, relay);
    hide Inv, RelayInOrder, DeliveredSound, RelayEnabled, HealthyRelay;
    b := SomeCycleStep(w.outbox, w.relays, relay, c.limit);
  }

  lemma SomePostStep(w: World, c: Crew) returns (b: WorkerAction<PostAction>)
    requires Inv(w) && Working(w, c) && (!PosterOf(w, c.poster).Idle? || w.eventsCommitted < |w.events|)
    ensures PosterEnabled(w, c.poster, PosterOf(w, c.poster), b) && Healthy(c, PosterStep(c.poster, b))
  {
    var p := PosterOf(w, c.poster);
    if p.Idle? {
      b := Poll;
    } else {
      assert PosterSound(w, p);
      var ev := w.events[p.pos];
      assert !InsertBlocked(w.posters, w.events, c.poster, ev.eventId);
      var h :=
        match p.phase
        case Decoding => Decode(true)
        case Posting(_) => if Supported(ev.currency) then Check else Refuse
        case Inserting(_) => Insert
        case Inserted(_) => CommitPosting(false)
        case Emitting(_, _, _) => Emit(false)
        case _ => CommitOffset(false);
      b := Handle(h);
    }
  }

  lemma SomeSagaStep(w: World, c: Crew) returns (b: WorkerAction<SagaAction>)
    requires Inv(w) && Working(w, c) && (!CompensatorOf(w, c.compensator).Idle? || w.outcomesCommitted < |w.outcomes|)
    ensures CompensatorEnabled(w, CompensatorOf(w, c.compensator), b)
    ensures Healthy(c, SagaMachine.SagaStep(c.compensator, b))
  {
    var p := CompensatorOf(w, c.compensator);
    if p.Idle? {
      b := Poll;
    } else {
      assert CompensatorSound(w, p);
      var h :=
        match p.phase
        case Reading => Interpret(true)
        case Compensating(_) => Compensate(false)
        case _ => Acknowledge(false);
      b := Handle(h);
    }
  }

  /** Unless everything is done and everyone at rest, some healthy step is possible. */
  lemma SomeHealthyStep(w: World, c: Crew) returns (a: Action)
    requires Inv(w) && Working(w, c) && c.limit > 0 && !(NothingLeft(w) && AtRest(w, c))
    ensures Enabled(w, a) && Healthy(c, a)
  {
    assert w.eventsCommitted <= |w.events| && w.outcomesCommitted <= |w.outcomes|;
    hide Inv, Working, RelayEnabled, PosterEnabled, CompensatorEnabled;
    if r :| r in c.relays && !RelayIn(w.relays, r).phase.Resting? {
      var b := SomeRelayStep(w, c, r);
      a := RelayStep(r, b);
    } else if PendingRows(w.outbox) != {} {
      var b := SomeLock(w, c);
      a := RelayStep(c.relays[0], b);
    } else if !PosterOf(w, c.poster).Idle? || w.eventsCommitted < |w.events| {
      var b := SomePostStep(w, c);
      a := PosterStep(c.poster, b);
    } else {
      var b := SomeSagaStep(w, c);
      a := SagaMachine.SagaStep(c.compensator, b);
    }
  }

  // ------------------------------------------------------------------------- runs

  ghost predicate HealthyRun(w: World, c: Crew, run: seq<Action>) {
    IsRun(w, run) && forall i :: 0 <= i < |run| ==> Healthy(c, run[i])
  }

  /** What a run gets done in all. */
  ghost function DoneBy(w: World, c: Crew, run: seq<Action>): nat
    requires IsRun(w, run)
    decreases |run|
  {
    if run == [] then 0 else Done(w, c, run[0]) + DoneBy(Next(w, run[0]), c, run[1..])
  }

  /** Over every healthy run, in any interleaving: work is conserved, and the steps are bounded. */
  lemma {:induction false} HealthyRunProgresses(w: World, c: Crew, run: seq<Action>)
    requires Inv(w) && Working(w, c) && HealthyRun(w, c, run)
    ensures var w' := Exec(w, run);
      && Inv(w') && Working(w', c) && SameDeadLetters(w, w')
      && Work(w', c) + DoneBy(w, c, run) == Work(w, c)
      && |run| + StepsLeft(w', c) <= StepsLeft(w, c)
    decreases |run|
  {
    hide Inv, Working, Enabled, Next, Healthy, Work, Done, StepsLeft;
    if run != [] {
      StepKeeps(w, run[0]);
      HealthyStepProgresses(w, c, run[0]);
      HealthyRunProgresses(Next(w, run[0]), c, run[1..]);
    }
  }

  /** A run that no healthy step can extend has done all the work. */
  lemma EndIsNothingLeft(w: World, c: Crew)
    requires Inv(w) && Working(w, c) && c.limit > 0
    requires forall a :: Enabled(w, a) ==> !Healthy(c, a)
    ensures NothingLeft(w) && AtRest(w, c) && Work(w, c) == 0
  {
    if !(NothingLeft(w) && AtRest(w, c)) {
      var a := SomeHealthyStep(w, c);
    }
    TotalOfNothing(Shipped, w.relays, c.relays);
    hide Inv;
  }

  /** Short of the end, a healthy step leaves fewer steps to take. */
  lemma HealthyNext(w: World, c: Crew) returns (a: Action)
    requires Inv(w) && Working(w, c) && c.limit > 0 && !(NothingLeft(w) && AtRest(w, c))
    ensures Enabled(w, a) && Healthy(c, a) && Inv(Next(w, a)) && Working(Next(w, a), c)
    ensures 0 <= StepsLeft(Next(w, a), c) < StepsLeft(w, c)
  {
    hide Inv, Working, Enabled, Next, Healthy, StepsLeft, NothingLeft, AtRest;
    a := SomeHealthyStep(w, c);
    StepKeeps(w, a);
    HealthyStepProgresses(w, c, a);
    StepsLeftBounds(Next(w, a), c);
  }

  /** Healthy runs can always be carried to the end. */
  lemma {:induction false} HealthyRunFinishes(w: World, c: Crew) returns (run: seq<Action>)
    requires Inv(w) && Working(w, c) && c.limit > 0
    ensures HealthyRun(w, c, run) && NothingLeft(Exec(w, run)) && AtRest(Exec(w, run), c)
    decreases StepsLeft(w, c)
  {
    hide Inv, Working, Enabled, Next, Healthy, StepsLeft, NothingLeft, AtRest;
    if NothingLeft(w) && AtRest(w, c) {
      run := [];
    } else {
      var a := HealthyNext(w, c);
      var rest := HealthyRunFinishes(Next(w, a), c);
      RunCons(w, a, rest);
      run := [a] + rest;
    }
  }
}
