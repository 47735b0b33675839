/**
 The outbox relay's cycle as sequential code over its database, its producer and its topic. It is
 proved to be a run of the saga machine, so everything proved of the machine's runs holds of the
 code. Which rows the query returns, what the broker does with each message and where an exception
 ends the cycle arrive as parameters.
 */
module RelayWorker {
  import opened Prelude
  import opened Payments
  import opened Ledger
  import opened SagaMachine
  import opened SagaRuns
  import opened Topics

  /** What becomes of a produced message. */
  datatype Fate = Acked | WrittenUnacked | NotWritten

  /** How far the producer's thread has got with a message by some moment: not sent, sent, or its callback run. */
  datatype Progress = Waiting | Sent | Reported

  /** Where an exception ends the cycle, if one does; the transaction is then rolled back. */
  datatype Abort = Nowhere | WhileProducing(row: nat, early: map<Ticket, Progress>) | WhileMarking

  /** The tickets whose messages the broker wrote, in order. */
  function Written(queue: seq<Ticket>, fates: map<Ticket, Fate>): seq<Ticket> {
    if queue == [] then []
    else
      var init, last := queue[..|queue| - 1], queue[|queue| - 1];
      if last in fates && fates[last] != NotWritten then Written(init, fates) + [last] else Written(init, fates)
  }

  function ProgressOf(early: map<Ticket, Progress>, t: Ticket): Progress {
    if t in early then early[t] else Waiting
  }

  /** The tickets still waiting in the producer's queue, ... */
  function StillQueued(queue: seq<Ticket>, early: map<Ticket, Progress>): seq<Ticket> {
    if queue == [] then []
    else
      var init, last := queue[..|queue| - 1], queue[|queue| - 1];
      if ProgressOf(early, last) == Waiting then StillQueued(init, early) + [last] else StillQueued(init, early)
  }

  predicate WrittenEarly(t: Ticket, early: map<Ticket, Progress>, fates: map<Ticket, Fate>) {
    ProgressOf(early, t) == Sent || (ProgressOf(early, t) == Reported && t in fates && fates[t] != NotWritten)
  }

  /** ... those whose messages are in the log already, ... */
  function SentEarly(queue: seq<Ticket>, early: map<Ticket, Progress>, fates: map<Ticket, Fate>): seq<Ticket> {
    if queue == [] then []
    else
      var init, last := queue[..|queue| - 1], queue[|queue| - 1];
      if WrittenEarly(last, early, fates) then SentEarly(init, early, fates) + [last] else SentEarly(init, early, fates)
  }

  /** ... and those that are written with their report outstanding, `old` ones included. */
  function StillUnreported(old': set<Ticket>, queue: seq<Ticket>, early: map<Ticket, Progress>): set<Ticket> {
    (set t | t in old' && ProgressOf(early, t) != Reported) + (set t | t in queue && ProgressOf(early, t) == Sent)
  }

  /** The rows of cycle `c` whose messages the broker acknowledged, in order; older cycles' callbacks are not ours. */
  function AckedRows(queue: seq<Ticket>, fates: map<Ticket, Fate>, c: nat): seq<string> {
    if queue == [] then []
    else
      var init, last := queue[..|queue| - 1], queue[|queue| - 1];
      if last in fates && fates[last] == Acked && last.cycle == c then AckedRows(init, fates, c) + [last.row]
      else AckedRows(init, fates, c)
  }

  /** The rows whose event type has a schema, as tickets of cycle `c`. */
  function Serializable(outbox: map<string, OutboxRow>, rows: seq<string>, c: nat): seq<Ticket> {
    if rows == [] then []
    else
      var init, last := rows[..|rows| - 1], rows[|rows| - 1];
      if last in outbox && outbox[last].eventType == PAYMENT_CAPTURED
        then Serializable(outbox, init, c) + [Ticket(c, last)]
      else Serializable(outbox, init, c)
  }

  ghost predicate InOutbox(outbox: map<string, OutboxRow>, queue: seq<Ticket>) {
    forall t :: t in queue ==> t.row in outbox
  }

  function EventsOf(outbox: map<string, OutboxRow>, queue: seq<Ticket>): seq<PaymentEvent>
    requires InOutbox(outbox, queue)
  {
    seq(|queue|, i requires 0 <= i < |queue| => EventOf(queue[i].row, outbox[queue[i].row]))
  }

  /** Exactly the rows with a schema get a ticket, once each. */
  lemma {:induction false} SerializableIn(outbox: map<string, OutboxRow>, rows: seq<string>, c: nat)
    ensures forall t :: t in Serializable(outbox, rows, c) <==>
      t.cycle == c && t.row in rows && t.row in outbox && outbox[t.row].eventType == PAYMENT_CAPTURED
    ensures Distinct(rows) ==> Distinct(Serializable(outbox, rows, c))
  {
    if rows != [] {
      var init, last := rows[..|rows| - 1], rows[|rows| - 1];
      SerializableIn(outbox, init, c);
      assert forall e :: e in rows <==> e in init || e == last;
      assert Distinct(rows) ==> Distinct(init) && last !in init;
    }
  }

  /** Exactly the messages the broker did not fail to write are written. */
  lemma {:induction false} WrittenIn(queue: seq<Ticket>, fates: map<Ticket, Fate>)
    ensures forall t :: t in Written(queue, fates) <==> t in queue && t in fates && fates[t] != NotWritten
  {
    if queue != [] {
      var init, last := queue[..|queue| - 1], queue[|queue| - 1];
      WrittenIn(init, fates);
      assert forall t :: t in queue <==> t in init || t == last;
    }
  }

  /** Each ticket of the queue is waiting, or in the log, or reported as never written. */
  lemma {:induction false} EarlyIn(queue: seq<Ticket>, early: map<Ticket, Progress>, fates: map<Ticket, Fate>)
    ensures forall t :: t in StillQueued(queue, early) <==> t in queue && ProgressOf(early, t) == Waiting
    ensures forall t :: t in SentEarly(queue, early, fates) <==> t in queue && WrittenEarly(t, early, fates)
    ensures Distinct(queue) ==> Distinct(StillQueued(queue, early))
  {
    if queue != [] {
      var init, last := queue[..|queue| - 1], queue[|queue| - 1];
      EarlyIn(init, early, fates);
      assert forall t :: t in queue <==> t in init || t == last;
      assert Distinct(queue) ==> Distinct(init) && last !in init;
    }
  }

  /** A row is marked exactly when this very cycle produced it and the broker acknowledged that message. */
  lemma {:induction false} AckedIn(queue: seq<Ticket>, fates: map<Ticket, Fate>, c: nat)
    ensures forall e :: e in AckedRows(queue, fates, c) <==>
      Ticket(c, e) in queue && Ticket(c, e) in fates && fates[Ticket(c, e)] == Acked
  {
    if queue != [] {
      var init, last := queue[..|queue| - 1], queue[|queue| - 1];
      AckedIn(init, fates, c);
      assert forall t :: t in queue <==> t in init || t == last;
    }
  }

  /** What is written is so in the order of the queue, ... */
  lemma {:induction false} WrittenInOrder(queue: seq<Ticket>, fates: map<Ticket, Fate>)
    ensures Kept(queue, (t: Ticket) => t in fates && fates[t] != NotWritten, Written(queue, fates))
  {
    hide Kept;
    var keep := (t: Ticket) => t in fates && fates[t] != NotWritten;
    if queue == [] {
      KeptNothing(keep);
    } else {
      var init, last := queue[..|queue| - 1], queue[|queue| - 1];
      assert queue == init + [last];
      WrittenInOrder(init, fates);
      KeptMore(init, keep, Written(init, fates), last);
    }
  }

  /** ... what is waiting still is, ... */
  lemma {:induction false} WaitingInOrder(queue: seq<Ticket>, early: map<Ticket, Progress>)
    ensures Kept(queue, (t: Ticket) => ProgressOf(early, t) == Waiting, StillQueued(queue, early))
  {
    hide Kept;
    var keep := (t: Ticket) => ProgressOf(early, t) == Waiting;
    if queue == [] {
      KeptNothing(keep);
    } else {
      var init, last := queue[..|queue| - 1], queue[|queue| - 1];
      assert queue == init + [last];
      WaitingInOrder(init, early);
      KeptMore(init, keep, StillQueued(init, early), last);
    }
  }

  /** ... and so is what was sent early. */
  lemma {:induction false} SentInOrder(queue: seq<Ticket>, early: map<Ticket, Progress>, fates: map<Ticket, Fate>)
    ensures Kept(queue, (t: Ticket) => WrittenEarly(t, early, fates), SentEarly(queue, early, fates))
  {
    hide Kept;
    var keep := (t: Ticket) => WrittenEarly(t, early, fates);
    if queue == [] {
      KeptNothing(keep);
    } else {
      var init, last := queue[..|queue| - 1], queue[|queue| - 1];
      assert queue == init + [last];
      SentInOrder(init, early, fates);
      KeptMore(init, keep, SentEarly(init, early, fates), last);
    }
  }

  /** The rows with a schema get their tickets in the order of the rows. */
  lemma {:induction false} InRowOrder(outbox: map<string, OutboxRow>, rows: seq<string>, c: nat)
    returns (kept: seq<string>)
    ensures Kept(rows, (e: string) => e in outbox && outbox[e].eventType == "PaymentCaptured", kept)
    ensures |Serializable(outbox, rows, c)| == |kept|
    ensures forall k :: 0 <= k < |kept| ==> Serializable(outbox, rows, c)[k] == Ticket(c, kept[k])
  {
    hide Kept;
    var keep := (e: string) => e in outbox && outbox[e].eventType == "PaymentCaptured";
    if rows == [] {
      kept := [];
      KeptNothing(keep);
    } else {
      var init, last := rows[..|rows| - 1], rows[|rows| - 1];
      assert rows == init + [last];
      var before := InRowOrder(outbox, init, c);
      KeptMore(init, keep, before, last);
      kept := if keep(last) then before + [last] else before;
    }
  }

  // --------------------------------------------------------------- machine states

  /** The machine has come to a cycle in this state, all else as in `w`. */
  ghost predicate InCycle(w: World, r: string, c: nat, rows: seq<string>, next: nat, delivered: seq<string>,
                          queued: set<Ticket>, written: set<Ticket>, events: seq<PaymentEvent>) {
    Reaches(w, WithRelay(w, r, Relay(c, Cycle(rows, next, delivered), queued, written), w.outbox, events))
  }

  /** The machine has come back to rest, with this outbox and log. */
  ghost predicate BackAtRest(w: World, w': World, r: string, c: nat, queued: set<Ticket>, written: set<Ticket>,
                             outbox: map<string, OutboxRow>, events: seq<PaymentEvent>) {
    Reaches(w, w') && w' == WithRelay(w, r, Relay(c, Resting, queued, written), outbox, events)
  }

  lemma LockRows(w: World, r: string, rows: seq<string>, limit: nat)
    requires RelayOf(w, r).phase == Resting && IsOldestBatch(w.outbox, w.relays, rows, limit)
    ensures InCycle(w, r, RelayOf(w, r).cycle + 1, rows, 0, [], RelayOf(w, r).queued, RelayOf(w, r).written, w.events)
    ensures Distinct(rows) && forall e :: e in rows ==> e in w.outbox
  {
    forall e | e in rows ensures e in w.outbox {
      var i :| 0 <= i < |rows| && rows[i] == e;
      assert Claimable(w.outbox, w.relays, rows[i]);
    }
    hide IsOldestBatch;
    ReachesSelf(w);
    ReachesStep(w, w, RelayStep(r, Lock(rows, limit)));
  }

  /**
   Locking the batch begins the next cycle, and what the cycle will have queued is distinct from what is left over.
   */
  lemma StartCycle(w: World, r: string, rows: seq<string>, limit: nat, queue: seq<Ticket>, unreported: set<Ticket>,
                   abort: Abort)
    requires RelayOf(w, r).phase == Resting && IsOldestBatch(w.outbox, w.relays, rows, limit)
    requires abort.WhileProducing? ==> abort.row <= |rows|
    requires Outstanding(w.outbox, queue, unreported, RelayOf(w, r).cycle)
    ensures var c := RelayOf(w, r).cycle + 1;
      && InCycle(w, r, c, rows, 0, [], RelayOf(w, r).queued, RelayOf(w, r).written, w.events)
      && Outstanding(w.outbox, QueueFor(queue, w.outbox, rows, abort, c), unreported, c)
    ensures forall e :: e in rows ==> e in w.outbox
  {
    var c := RelayOf(w, r).cycle + 1;
    LockRows(w, r, rows, limit);
    assert rows[..|rows|] == rows;
    hide IsOldestBatch, InCycle;
    QueueGrows(w.outbox, queue, unreported, rows, if abort.WhileProducing? then abort.row else |rows|, c);
  }

  /** Producing row `i` queues its ticket, or skips the row when its event type has no schema. */
  lemma ProduceRow(w: World, r: string, c: nat, rows: seq<string>, i: nat, queue: seq<Ticket>, written: set<Ticket>)
    requires i < |rows| && rows[i] in w.outbox
    requires InCycle(w, r, c, rows, i, [], Elements(queue), written, w.events)
    ensures var queue' := if w.outbox[rows[i]].eventType == PAYMENT_CAPTURED then queue + [Ticket(c, rows[i])]
      else queue;
            InCycle(w, r, c, rows, i + 1, [], Elements(queue'), written, w.events)
  {
    var me := Relay(c, Cycle(rows, i, []), Elements(queue), written);
    assert Elements(queue + [Ticket(c, rows[i])]) == Elements(queue) + {Ticket(c, rows[i])};
    RelayMove(w, r, me, w.outbox, w.events, Produce);
    hide Enabled, Next, WithRelay;
    ReachesStep(w, WithRelay(w, r, me, w.outbox, w.events), RelayStep(r, Produce));
  }

  lemma FirstTicket(queue: seq<Ticket>, j: nat)
    requires j < |queue| && Distinct(queue)
    ensures queue[j] in Elements(queue[j..]) && Elements(queue[j..]) - {queue[j]} == Elements(queue[j + 1..])
    ensures queue[j] !in queue[..j]
  {
    assert queue[j..] == [queue[j]] + queue[j + 1..];
  }

  /** The broker appends the message. */
  lemma Writes(w: World, r: string, c: nat, rows: seq<string>, next: nat, delivered: seq<string>, left: set<Ticket>,
               written: set<Ticket>, events: seq<PaymentEvent>, t: Ticket)
    requires InCycle(w, r, c, rows, next, delivered, left, written, events) && t in left && t.row in w.outbox
    ensures InCycle(w, r, c, rows, next, delivered, left - {t}, written + {t},
                    events + [EventOf(t.row, w.outbox[t.row])])
  {
    var me := Relay(c, Cycle(rows, next, delivered), left, written);
    RelayMove(w, r, me, w.outbox, events, Write(t));
    hide Enabled, Next, WithRelay;
    ReachesStep(w, WithRelay(w, r, me, w.outbox, events), RelayStep(r, Write(t)));
  }

  /** The callback of a written message runs, with or without an error; only the cycle's own rows are collected. */
  lemma Reports(w: World, r: string, c: nat, rows: seq<string>, next: nat, delivered: seq<string>, left: set<Ticket>,
                written: set<Ticket>, events: seq<PaymentEvent>, t: Ticket, ok: bool)
    requires InCycle(w, r, c, rows, next, delivered, left, written, events) && t in written && t !in left
    ensures InCycle(w, r, c, rows, next, if ok && t.cycle == c then delivered + [t.row] else delivered, left,
                    written - {t}, events)
  {
    var me := Relay(c, Cycle(rows, next, delivered), left, written);
    assert left - {t} == left;
    RelayMove(w, r, me, w.outbox, events, Report(t, ok));
    hide Enabled, Next, WithRelay;
    ReachesStep(w, WithRelay(w, r, me, w.outbox, events), RelayStep(r, Report(t, ok)));
  }

  /** The broker appends the message and its callback runs. */
  lemma WritesAndReports(w: World, r: string, c: nat, rows: seq<string>, next: nat, delivered: seq<string>,
                         left: set<Ticket>, written: set<Ticket>, events: seq<PaymentEvent>, t: Ticket, ok: bool)
    requires InCycle(w, r, c, rows, next, delivered, left, written, events) && t in left && t !in written
    requires t.row in w.outbox
    ensures InCycle(w, r, c, rows, next, if ok && t.cycle == c then delivered + [t.row] else delivered, left - {t},
                    written, events + [EventOf(t.row, w.outbox[t.row])])
  {
    hide InCycle;
    Writes(w, r, c, rows, next, delivered, left, written, events, t);
    Reports(w, r, c, rows, next, delivered, left - {t}, written + {t}, events + [EventOf(t.row, w.outbox[t.row])], t,
            ok);
    assert written + {t} - {t} == written;
  }

  /** The message never reaches the broker: an error callback. */
  lemma FailsToWrite(w: World, r: string, c: nat, rows: seq<string>, next: nat, delivered: seq<string>,
                     left: set<Ticket>, written: set<Ticket>, events: seq<PaymentEvent>, t: Ticket)
    requires InCycle(w, r, c, rows, next, delivered, left, written, events) && t in left && t !in written
    ensures InCycle(w, r, c, rows, next, delivered, left - {t}, written, events)
  {
    var me := Relay(c, Cycle(rows, next, delivered), left, written);
    assert written - {t} == written;
    RelayMove(w, r, me, w.outbox, events, Report(t, false));
    hide Enabled, Next, WithRelay;
    ReachesStep(w, WithRelay(w, r, me, w.outbox, events), RelayStep(r, Report(t, false)));
  }

  /** Callbacks left over from older cycles run; they touch nothing of this one. */
  lemma {:induction false} OldReports(w: World, r: string, c: nat, rows: seq<string>, next: nat,
                                      delivered: seq<string>, left: set<Ticket>, written: set<Ticket>,
                                      events: seq<PaymentEvent>, told: set<Ticket>)
    requires InCycle(w, r, c, rows, next, delivered, left, written, events) && told <= written && told !! left
    ensures InCycle(w, r, c, rows, next, delivered, left, written - told, events)
    decreases |told|
  {
    hide InCycle;
    if told == {} {
      assert written - told == written;
    } else {
      var t :| t in told;
      Reports(w, r, c, rows, next, delivered, left, written, events, t, false);
      OldReports(w, r, c, rows, next, delivered, left, written - {t}, events, told - {t});
      assert written - {t} - (told - {t}) == written - told;
    }
  }

  lemma MarkAndCommit(w: World, r: string, c: nat, rows: seq<string>, delivered: seq<string>, events: seq<PaymentEvent>)
    returns (w': World)
    requires InCycle(w, r, c, rows, |rows|, delivered, {}, {}, events)
    ensures BackAtRest(w, w', r, c, {}, {}, Publish(w.outbox, delivered), events)
  {
    var me := Relay(c, Cycle(rows, |rows|, delivered), {}, {});
    var marked := Relay(c, Marked(rows, delivered), {}, {});
    RelayMove(w, r, me, w.outbox, events, Mark);
    RelayMove(w, r, marked, w.outbox, events, CommitCycle);
    hide Enabled, Next, WithRelay, Publish;
    ReachesStep(w, WithRelay(w, r, me, w.outbox, events), RelayStep(r, Mark));
    ReachesStep(w, WithRelay(w, r, marked, w.outbox, events), RelayStep(r, CommitCycle));
    w' := WithRelay(w, r, Relay(c, Resting, {}, {}), Publish(w.outbox, delivered), events);
  }

  lemma RollsBack(w: World, r: string, c: nat, rows: seq<string>, next: nat, delivered: seq<string>,
                  queued: set<Ticket>, written: set<Ticket>, events: seq<PaymentEvent>)
    returns (w': World)
    requires InCycle(w, r, c, rows, next, delivered, queued, written, events)
    ensures BackAtRest(w, w', r, c, queued, written, w.outbox, events)
  {
    var me := Relay(c, Cycle(rows, next, delivered), queued, written);
    RelayMove(w, r, me, w.outbox, events, Rollback);
    hide Enabled, Next, WithRelay;
    ReachesStep(w, WithRelay(w, r, me, w.outbox, events), RelayStep(r, Rollback));
    w' := WithRelay(w, r, Relay(c, Resting, queued, written), w.outbox, events);
  }

  // ---------------------------------------------------------------------- the relay

  /** What cycle `c` over `rows` adds to the producer's queue before the flush. */
  function QueueFor(queue: seq<Ticket>, outbox: map<string, OutboxRow>, rows: seq<string>, abort: Abort,
                    c: nat): seq<Ticket> {
    queue + Serializable(outbox, if abort.WhileProducing? && abort.row <= |rows| then rows[..abort.row] else rows, c)
  }

  /** A cycle cut short: no row changes, and the topic has what the producer's thread had sent by then. */
  ghost predicate CutTo(outbox: map<string, OutboxRow>, log: seq<PaymentEvent>, all: seq<Ticket>,
                        early: map<Ticket, Progress>, fates: map<Ticket, Fate>, outbox': map<string, OutboxRow>,
                        log': seq<PaymentEvent>, queue': seq<Ticket>) {
    && outbox' == outbox && queue' == StillQueued(all, early)
    && InOutbox(outbox, SentEarly(all, early, fates))
    && log' == log + EventsOf(outbox, SentEarly(all, early, fates))
  }

  /**
   A cycle that got past its flush: everything queued is settled, leftovers of older cycles included,
   and exactly the rows this cycle saw acknowledged are marked, unless marking fails.
   */
  ghost predicate CompletedTo(outbox: map<string, OutboxRow>, log: seq<PaymentEvent>, all: seq<Ticket>, c: nat,
                              fates: map<Ticket, Fate>,
                              fails: bool, outbox': map<string, OutboxRow>, log': seq<PaymentEvent>, published: nat) {
    && InOutbox(outbox, Written(all, fates))
    && log' == log + EventsOf(outbox, Written(all, fates))
    && outbox' == (if fails then outbox else Publish(outbox, AckedRows(all, fates, c)))
    && published == if fails then 0 else |AckedRows(all, fates, c)|
  }

  /** What a cycle over some rows comes to, wherever it ends. */
  ghost predicate Ended(outbox: map<string, OutboxRow>, log: seq<PaymentEvent>, all: seq<Ticket>, c: nat,
                        fates: map<Ticket, Fate>, abort: Abort, outbox': map<string, OutboxRow>,
                        log': seq<PaymentEvent>, queue': seq<Ticket>, published: nat) {
    if abort.WhileProducing? then
      CutTo(outbox, log, all, abort.early, fates, outbox', log', queue') && published == 0
    else
      CompletedTo(outbox, log, all, c, fates, abort.WhileMarking?, outbox', log', published) && queue' == []
  }

  // ---------------------------------------------------- what a cycle comes to, row by row

  /** The row can be published by cycle `c`: it has a schema, and the broker acknowledged this cycle's message. */
  predicate Confirmed(outbox: map<string, OutboxRow>, rows: seq<string>, c: nat, fates: map<Ticket, Fate>, e: string) {
    && e in rows && e in outbox && outbox[e].eventType == "PaymentCaptured"
    && Ticket(c, e) in fates && fates[Ticket(c, e)] == Acked
  }

  /** A message carries its row's own data. */
  predicate CarriesRow(outbox: map<string, OutboxRow>, ev: PaymentEvent) {
    && ev.eventId in outbox
    && var row := outbox[ev.eventId];
       && ev.tenant == row.tenant && ev.paymentId == row.paymentId && ev.amount == row.amount
       && ev.currency == row.currency && ev.reference == row.reference
  }

  /** Exactly the confirmed rows turn PUBLISHED, unless an exception rolls the cycle back; nothing else changes. */
  ghost predicate RowsAfter(outbox: map<string, OutboxRow>, rows: seq<string>, c: nat, fates: map<Ticket, Fate>,
                            raised: bool, outbox': map<string, OutboxRow>, published: nat) {
    && outbox'.Keys == outbox.Keys
    && (forall e :: e in outbox ==>
         outbox'[e] == if !raised && Confirmed(outbox, rows, c, fates, e) then outbox[e].(status := Published)
                       else outbox[e])
    && published == if raised then 0 else |set e | e in rows && Confirmed(outbox, rows, c, fates, e)|
  }

  /** The row has a schema, and the broker wrote its message. */
  predicate NotLost(outbox: map<string, OutboxRow>, c: nat, fates: map<Ticket, Fate>, e: string)
    requires e in outbox
  {
    && outbox[e].eventType == "PaymentCaptured"
    && Ticket(c, e) in fates && fates[Ticket(c, e)] != NotWritten
  }

  /** The topic only grows, by messages that carry their rows; past a flush, by all that the broker did not lose. */
  ghost predicate LogAfter(outbox: map<string, OutboxRow>, log: seq<PaymentEvent>, rows: seq<string>, c: nat,
                           fates: map<Ticket, Fate>, flushed: bool, log': seq<PaymentEvent>) {
    && log <= log'
    && (forall i :: |log| <= i < |log'| ==> CarriesRow(outbox, log'[i]))
    && (flushed ==>
         forall e :: e in rows && e in outbox && NotLost(outbox, c, fates, e) ==>
           exists i :: |log| <= i < |log'| && log'[i].eventId == e)
  }

  /** In the queue is what was not sent, and a report is out for what was sent and has had none. */
  ghost predicate LeftInProducer(all: seq<Ticket>, unreported: set<Ticket>, early: map<Ticket, Progress>,
                                 queue': seq<Ticket>, unreported': set<Ticket>) {
    && (forall t :: t in queue' <==> t in all && (t !in early || early[t] == Waiting))
    && (forall t :: t in unreported' <==>
         (|| (t in unreported && (t !in early || early[t] != Reported))
          || (t in all && t in early && early[t] == Sent)))
  }

  lemma LeftMeans(all: seq<Ticket>, unreported: set<Ticket>, early: map<Ticket, Progress>, fates: map<Ticket, Fate>)
    ensures LeftInProducer(all, unreported, early, StillQueued(all, early), StillUnreported(unreported, all, early))
  {
    EarlyIn(all, early, fates);
    hide StillQueued;
  }

  lemma {:induction false} AckedOnce(queue: seq<Ticket>, fates: map<Ticket, Fate>, c: nat)
    requires Distinct(queue)
    ensures Distinct(AckedRows(queue, fates, c))
  {
    if queue != [] {
      var init, last := queue[..|queue| - 1], queue[|queue| - 1];
      AckedOnce(init, fates, c);
      AckedIn(init, fates, c);
      assert last !in init;
    }
  }

  lemma EventsCarry(outbox: map<string, OutboxRow>, queue: seq<Ticket>)
    requires InOutbox(outbox, queue)
    ensures forall i :: 0 <= i < |queue| ==> EventsOf(outbox, queue)[i].eventId == queue[i].row
    ensures forall i :: 0 <= i < |queue| ==> CarriesRow(outbox, EventsOf(outbox, queue)[i])
  {
  }

  /** The tickets of one cycle that the queue holds are those it produced. */
  lemma OwnTickets(outbox: map<string, OutboxRow>, queue: seq<Ticket>, rows: seq<string>, c: nat)
    requires forall t :: t in queue ==> t.cycle < c
    ensures forall e :: Ticket(c, e) in queue + Serializable(outbox, rows, c) <==>
      e in rows && e in outbox && outbox[e].eventType == "PaymentCaptured"
  {
    SerializableIn(outbox, rows, c);
  }

  lemma CompletedRows(outbox: map<string, OutboxRow>, queue: seq<Ticket>, rows: seq<string>, c: nat,
                      fates: map<Ticket, Fate>, fails: bool)
    requires Distinct(queue + Serializable(outbox, rows, c)) && forall t :: t in queue ==> t.cycle < c
    ensures var acked := AckedRows(queue + Serializable(outbox, rows, c), fates, c);
      RowsAfter(outbox, rows, c, fates, fails, if fails then outbox else Publish(outbox, acked),
                if fails then 0 else |acked|)
  {
    var all := queue + Serializable(outbox, rows, c);
    var acked := AckedRows(all, fates, c);
    OwnTickets(outbox, queue, rows, c);
    AckedIn(all, fates, c);
    AckedOnce(all, fates, c);
    DistinctCount(acked);
    hide AckedRows, Serializable;
    assert forall e :: e in acked <==> Confirmed(outbox, rows, c, fates, e);
    assert Elements(acked) == set e | e in rows && Confirmed(outbox, rows, c, fates, e);
  }

  lemma CompletedLog(outbox: map<string, OutboxRow>, log: seq<PaymentEvent>, queue: seq<Ticket>, rows: seq<string>,
                     c: nat, fates: map<Ticket, Fate>)
    requires var written := Written(queue + Serializable(outbox, rows, c), fates); InOutbox(outbox, written)
    ensures var written := Written(queue + Serializable(outbox, rows, c), fates);
      LogAfter(outbox, log, rows, c, fates, true, log + EventsOf(outbox, written))
  {
    var all := queue + Serializable(outbox, rows, c);
    var written := Written(all, fates);
    var log' := log + EventsOf(outbox, written);
    EventsCarry(outbox, written);
    WrittenIn(all, fates);
    SerializableIn(outbox, rows, c);
    hide CarriesRow, Written, Serializable;
    forall e | e in rows && e in outbox && NotLost(outbox, c, fates, e)
      ensures exists i :: |log| <= i < |log'| && log'[i].eventId == e
    {
      assert Ticket(c, e) in written;
      var k :| 0 <= k < |written| && written[k] == Ticket(c, e);
      assert log'[|log| + k] == EventsOf(outbox, written)[k];
    }
  }

  lemma OwnQueue(outbox: map<string, OutboxRow>, queue: seq<Ticket>, unreported: set<Ticket>, rows: seq<string>,
                 abort: Abort, c: nat)
    requires Outstanding(outbox, queue, unreported, c)
    requires Outstanding(outbox, QueueFor(queue, outbox, rows, abort, c + 1), unreported, c + 1)
    ensures Distinct(QueueFor(queue, outbox, rows, abort, c + 1)) && forall t :: t in queue ==> t.cycle < c + 1
  {
  }

  /** Row by row and message by message, wherever the cycle ends. */
  lemma EndedMeans(outbox: map<string, OutboxRow>, log: seq<PaymentEvent>, queue: seq<Ticket>, rows: seq<string>,
                   c: nat, fates: map<Ticket, Fate>, abort: Abort, outbox': map<string, OutboxRow>,
                   log': seq<PaymentEvent>, queue': seq<Ticket>, published: nat)
    requires Ended(outbox, log, QueueFor(queue, outbox, rows, abort, c), c, fates, abort, outbox', log', queue',
                   published)
    requires Distinct(QueueFor(queue, outbox, rows, abort, c)) && forall t :: t in queue ==> t.cycle < c
    requires abort.WhileProducing? ==> abort.row <= |rows|
    ensures RowsAfter(outbox, rows, c, fates, abort != Nowhere, outbox', published)
    ensures LogAfter(outbox, log, rows, c, fates, !abort.WhileProducing?, log')
  {
    if abort.WhileProducing? {
      EventsCarry(outbox, SentEarly(QueueFor(queue, outbox, rows, abort, c), abort.early, fates));
    } else {
      CompletedRows(outbox, queue, rows, c, fates, abort.WhileMarking?);
      CompletedLog(outbox, log, queue, rows, c, fates);
      hide RowsAfter, LogAfter, Publish;
    }
  }

  class OutboxRelay {
    const name: string
    const batchSize: nat
    const db: PaymentService
    const topic: Topic<PaymentEvent>
    var cycle: nat
    /** The producer's queue: a rolled-back cycle leaves its unsent messages in it, ... */
    var queue: seq<Ticket>
    /** ... and the reports of sent ones outstanding. */
    var unreported: set<Ticket>

    constructor (name: string, batchSize: nat, db: PaymentService, topic: Topic<PaymentEvent>)
      ensures this.name == name && this.batchSize == batchSize && this.db == db && this.topic == topic
      ensures cycle == 0 && queue == [] && unreported == {}
    {
      this.name, this.batchSize, this.db, this.topic := name, batchSize, db, topic;
      cycle, queue, unreported := 0, [], {};
    }

    /** Database, topic and producer are as world `w` has them, and this relay is between cycles. */
    ghost predicate Shows(w: World)
      reads this, db, topic
    {
      && db.payments == w.payments && db.outbox == w.outbox && topic.log == w.events
      && RelayOf(w, name) == Relay(cycle, Resting, Elements(queue), unreported)
      && Outstanding(w.outbox, queue, unreported, cycle)
    }

    /** Serialize and enqueue the rows in turn; a row without a schema is skipped. */
    method ProduceAll(rows: seq<string>, count: nat, ghost w: World)
      requires count <= |rows| && db.outbox == w.outbox && forall e :: e in rows ==> e in w.outbox
      requires InCycle(w, name, cycle, rows, 0, [], Elements(queue), unreported, w.events)
      modifies this`queue
      ensures queue == old(queue) + Serializable(w.outbox, rows[..count], cycle)
      ensures InCycle(w, name, cycle, rows, count, [], Elements(queue), unreported, w.events)
    {
      for i := 0 to count
        invariant queue == old(queue) + Serializable(w.outbox, rows[..i], cycle)
        invariant InCycle(w, name, cycle, rows, i, [], Elements(queue), unreported, w.events)
      {
        assert rows[..i + 1][..i] == rows[..i];
        ProduceRow(w, name, cycle, rows, i, queue, unreported);
        if db.outbox[rows[i]].eventType == PAYMENT_CAPTURED {
          queue := queue + [Ticket(cycle, rows[i])];
        }
      }
    }

    /** Wait for every delivery report; the callbacks of this cycle collect its acknowledged rows. */
    method Flush(fates: map<Ticket, Fate>, ghost w: World, ghost rows: seq<string>) returns (delivered: seq<string>)
      requires db.outbox == w.outbox && topic.log == w.events
      requires Outstanding(w.outbox, queue, unreported, cycle) && forall t :: t in queue ==> t in fates
      requires InCycle(w, name, cycle, rows, |rows|, [], Elements(queue), unreported, w.events)
      modifies topic`log, this`queue, this`unreported
      ensures queue == [] && unreported == {} && delivered == AckedRows(old(queue), fates, cycle)
      ensures InOutbox(w.outbox, Written(old(queue), fates))
      ensures topic.log == w.events + EventsOf(w.outbox, Written(old(queue), fates))
      ensures InCycle(w, name, cycle, rows, |rows|, delivered, {}, {}, topic.log)
    {
      hide InCycle;
      ghost var q := queue;
      delivered := [];
      WrittenIn(q, fates);
      assert q[0..] == q;
      assert topic.log == w.events + EventsOf(w.outbox, Written(q[..0], fates));
      for j := 0 to |queue|
        invariant delivered == AckedRows(q[..j], fates, cycle)
        invariant InOutbox(w.outbox, Written(q[..j], fates))
        invariant topic.log == w.events + EventsOf(w.outbox, Written(q[..j], fates))
        invariant InCycle(w, name, cycle, rows, |rows|, delivered, Elements(q[j..]), unreported, topic.log)
        invariant queue == q && unreported == old(unreported)
      {
        var t := queue[j];
        assert q[..j + 1][..j] == q[..j];
        FirstTicket(q, j);
        if fates[t] == NotWritten {
          FailsToWrite(w, name, cycle, rows, |rows|, delivered, Elements(q[j..]), unreported, topic.log, t);
        } else {
          WritesAndReports(w, name, cycle, rows, |rows|, delivered, Elements(q[j..]), unreported, topic.log, t,
                           fates[t] == Acked);
          topic.log := topic.log + [EventOf(t.row, db.outbox[t.row])];
          if fates[t] == Acked && t.cycle == cycle {
            delivered := delivered + [t.row];
          }
        }
      }
      assert q[..|q|] == q;
      assert Elements(q[|q|..]) == {} && unreported - unreported == {};
      OldReports(w, name, cycle, rows, |rows|, delivered, {}, unreported, topic.log, unreported);
      queue, unreported := [], {};
    }

    /** What the producer's thread and `poll(0)` get done while the loop is still producing. */
    method PumpEarly(early: map<Ticket, Progress>, fates: map<Ticket, Fate>, ghost w: World, ghost rows: seq<string>,
                     ghost next: nat)
      returns (ghost delivered: seq<string>)
      requires db.outbox == w.outbox && topic.log == w.events
      requires Outstanding(w.outbox, queue, unreported, cycle) && forall t :: t in queue ==> t in fates
      requires InCycle(w, name, cycle, rows, next, [], Elements(queue), unreported, w.events)
      modifies topic`log, this`queue, this`unreported
      ensures queue == StillQueued(old(queue), early)
      ensures unreported == StillUnreported(old(unreported), old(queue), early)
      ensures InOutbox(w.outbox, SentEarly(old(queue), early, fates))
      ensures topic.log == w.events + EventsOf(w.outbox, SentEarly(old(queue), early, fates))
      ensures InCycle(w, name, cycle, rows, next, delivered, Elements(queue), unreported, topic.log)
    {
      var pending, u := queue, unreported;
      delivered, queue := [], [];
      PumpStarts(w, pending, u, early, fates, topic.log);
      hide InCycle, Pumped, EventOf, Outstanding, WrittenEarly;
      for j := 0 to |pending|
        invariant Pumped(w, pending, u, j, early, fates, queue, unreported, topic.log)
        invariant InCycle(w, name, cycle, rows, next, delivered, Elements(queue) + Elements(pending[j..]), unreported,
                          topic.log)
      {
        var t := pending[j];
        delivered := PumpStep(w, name, cycle, rows, next, delivered, pending, u, j, early, fates, queue, unreported,
                              topic.log);
        if ProgressOf(early, t) == Waiting {
          queue := queue + [t];
        } else if ProgressOf(early, t) == Sent {
          unreported := unreported + {t};
        }
        if WrittenEarly(t, early, fates) {
          topic.log := topic.log + [EventOf(t.row, db.outbox[t.row])];
        }
      }
      var told := set t | t in u && ProgressOf(early, t) == Reported;
      PumpEnds(w, name, cycle, rows, next, delivered, pending, u, early, fates, queue, unreported, topic.log, told);
      unreported := unreported - told;
    }

    /** `rows` is what the locking query returned; `fates` is what the broker does with each message in the queue. */
    method RunOnce(rows: seq<string>, fates: map<Ticket, Fate>, abort: Abort, ghost w: World)
      returns (raised: bool, published: nat, ghost w': World)
      requires Shows(w) && (abort.WhileProducing? ==> abort.row <= |rows|)
      requires rows == [] || IsOldestBatch(w.outbox, w.relays, rows, batchSize)
      requires forall t :: t in QueueFor(queue, db.outbox, rows, abort, cycle + 1) ==> t in fates
      modifies db`outbox, topic`log, this`cycle, this`queue, this`unreported
      ensures Reaches(w, w') && Shows(w')
      ensures raised <==> rows != [] && abort != Nowhere
      ensures rows == [] ==>
        published == 0 && db.outbox == old(db.outbox) && topic.log == old(topic.log) && queue == old(queue)
      ensures rows != [] ==>
        Ended(old(db.outbox), old(topic.log), QueueFor(old(queue), old(db.outbox), rows, abort, old(cycle) + 1),
              old(cycle) + 1, fates, abort, db.outbox, topic.log, queue, published)
      ensures rows != [] ==>
        && cycle == old(cycle) + 1
        && RowsAfter(old(db.outbox), rows, cycle, fates, raised, db.outbox, published)
        && LogAfter(old(db.outbox), old(topic.log), rows, cycle, fates, !abort.WhileProducing?, topic.log)
    {
      if rows == [] {
        ReachesSelf(w);
        return false, 0, w;
      }
      StartCycle(w, name, rows, batchSize, queue, unreported, abort);
      ghost var q := queue;
      OwnQueue(w.outbox, queue, unreported, rows, abort, cycle);
      hide IsOldestBatch, InCycle, Reaches, Outstanding, Ended, QueueFor, RelayOf, Elements, RowsAfter, LogAfter;
      cycle := cycle + 1;
      raised := abort != Nowhere;
      published, w' := Transact(rows, fates, abort, w);
      EndedMeans(w.outbox, w.events, q, rows, cycle, fates, abort, db.outbox, topic.log, queue, published);
    }

    /** The body of the transaction, once the rows are locked. */
    method Transact(rows: seq<string>, fates: map<Ticket, Fate>, abort: Abort, ghost w: World)
      returns (published: nat, ghost w': World)
      requires db.payments == w.payments && db.outbox == w.outbox && topic.log == w.events
      requires (abort.WhileProducing? ==> abort.row <= |rows|) && forall e :: e in rows ==> e in w.outbox
      requires InCycle(w, name, cycle, rows, 0, [], Elements(queue), unreported, w.events)
      requires var all := QueueFor(queue, w.outbox, rows, abort, cycle);
        Outstanding(w.outbox, all, unreported, cycle) && forall t :: t in all ==> t in fates
      modifies db`outbox, topic`log, this`queue, this`unreported
      ensures Reaches(w, w') && Shows(w')
      ensures Ended(w.outbox, w.events, QueueFor(old(queue), w.outbox, rows, abort, cycle), cycle, fates, abort,
                    db.outbox, topic.log, queue, published)
    {
      hide InCycle, Reaches, Outstanding, CutTo, CompletedTo, RelayOf, Elements, Serializable;
      if abort.WhileProducing? {
        published := 0;
        w' := CutShort(rows, abort.row, abort.early, fates, w);
      } else {
        published, w' := Complete(rows, fates, abort.WhileMarking?, w);
      }
    }

    /** An exception after some rows were produced: roll back. */
    method CutShort(rows: seq<string>, count: nat, early: map<Ticket, Progress>, fates: map<Ticket, Fate>,
                    ghost w: World)
      returns (ghost w': World)
      requires count <= |rows| && db.payments == w.payments && db.outbox == w.outbox && topic.log == w.events
      requires forall e :: e in rows ==> e in w.outbox
      requires InCycle(w, name, cycle, rows, 0, [], Elements(queue), unreported, w.events)
      requires var all := queue + Serializable(w.outbox, rows[..count], cycle);
        Outstanding(w.outbox, all, unreported, cycle) && forall t :: t in all ==> t in fates
      modifies topic`log, this`queue, this`unreported
      ensures var all := old(queue) + Serializable(w.outbox, rows[..count], cycle);
        && CutTo(w.outbox, w.events, all, early, fates, db.outbox, topic.log, queue)
        && unreported == StillUnreported(old(unreported), all, early)
        && LeftInProducer(all, old(unreported), early, queue, unreported)
      ensures Reaches(w, w') && Shows(w')
    {
      hide InCycle, Serializable, StillQueued, SentEarly, StillUnreported, EventsOf, Elements, InOutbox, LeftInProducer;
      ProduceAll(rows, count, w);
      ghost var all, before := queue, unreported;
      ghost var delivered := PumpEarly(early, fates, w, rows, count);
      OutstandingShrinks(w.outbox, all, before, early, fates, cycle);
      LeftMeans(all, before, early, fates);
      w' := RollsBack(w, name, cycle, rows, count, delivered, Elements(queue), unreported, topic.log);
    }

    /** The rest of a cycle: produce, flush, mark and commit, or roll back if marking fails. */
    method Complete(rows: seq<string>, fates: map<Ticket, Fate>, fails: bool, ghost w: World)
      returns (published: nat, ghost w': World)
      requires db.payments == w.payments && db.outbox == w.outbox && topic.log == w.events
      requires forall e :: e in rows ==> e in w.outbox
      requires InCycle(w, name, cycle, rows, 0, [], Elements(queue), unreported, w.events)
      requires var all := queue + Serializable(w.outbox, rows, cycle);
        Outstanding(w.outbox, all, unreported, cycle) && forall t :: t in all ==> t in fates
      modifies db`outbox, topic`log, this`queue, this`unreported
      ensures queue == [] && Reaches(w, w') && Shows(w')
      ensures var all := old(queue) + Serializable(w.outbox, rows, cycle);
        CompletedTo(w.outbox, w.events, all, cycle, fates, fails, db.outbox, topic.log, published)
    {
      assert rows[..|rows|] == rows;
      hide InCycle, Serializable, AckedRows, Written, EventsOf, Publish, Reaches, Outstanding, InOutbox, Elements;
      ProduceAll(rows, |rows|, w);
      var delivered := Flush(fates, w, rows);
      published, w' := Settle(rows, delivered, fails, w);
    }

    /** Mark exactly the acknowledged rows and commit, or roll back if marking fails. */
    method Settle(rows: seq<string>, delivered: seq<string>, fails: bool, ghost w: World)
      returns (published: nat, ghost w': World)
      requires db.payments == w.payments && db.outbox == w.outbox && queue == [] && unreported == {}
      requires InCycle(w, name, cycle, rows, |rows|, delivered, {}, {}, topic.log)
      modifies db`outbox
      ensures Reaches(w, w') && Shows(w')
      ensures db.outbox == (if fails then w.outbox else Publish(w.outbox, delivered))
      ensures published == if fails then 0 else |delivered|
    {
      Nothing(w.outbox);
      hide InCycle, Elements, Publish;
      if fails {
        w' := RollsBack(w, name, cycle, rows, |rows|, delivered, {}, {}, topic.log);
        return 0, w';
      }
      if delivered != [] {
        db.outbox := Publish(db.outbox, delivered);
      }
      w' := MarkAndCommit(w, name, cycle, rows, delivered, topic.log);
      published := |delivered|;
    }
  }

  lemma Nothing(outbox: map<string, OutboxRow>)
    ensures Elements<Ticket>([]) == {} && Publish(outbox, []) == outbox
  {
  }

  function SentOf(queue: seq<Ticket>, early: map<Ticket, Progress>): set<Ticket> {
    set t | t in queue && ProgressOf(early, t) == Sent
  }

  /** One ticket further along the queue. */
  lemma EarlyGrows(q: seq<Ticket>, j: nat, early: map<Ticket, Progress>, fates: map<Ticket, Fate>)
    requires j < |q|
    ensures StillQueued(q[..j + 1], early) ==
      StillQueued(q[..j], early) + if ProgressOf(early, q[j]) == Waiting then [q[j]] else []
    ensures SentEarly(q[..j + 1], early, fates) ==
      SentEarly(q[..j], early, fates) + if WrittenEarly(q[j], early, fates) then [q[j]] else []
    ensures SentOf(q[..j + 1], early) == SentOf(q[..j], early) + if ProgressOf(early, q[j]) == Sent then {q[j]} else {}
  {
    assert q[..j + 1][..j] == q[..j] && q[..j + 1] == q[..j] + [q[j]];
  }

  /** What the producer does with one ticket is a step or two of the machine, or none. */
  lemma EarlyStep(w: World, r: string, c: nat, rows: seq<string>, next: nat, delivered: seq<string>, kept: seq<Ticket>,
                  q: seq<Ticket>, j: nat, written: set<Ticket>, events: seq<PaymentEvent>,
                  early: map<Ticket, Progress>, fates: map<Ticket, Fate>) returns (delivered': seq<string>)
    requires j < |q| && Distinct(q) && q[j].row in w.outbox && q[j] in fates && q[j] !in written && q[j] !in kept
    requires InCycle(w, r, c, rows, next, delivered, Elements(kept) + Elements(q[j..]), written, events)
    ensures var t := q[j];
      InCycle(w, r, c, rows, next, delivered',
              Elements(if ProgressOf(early, t) == Waiting then kept + [t] else kept) + Elements(q[j + 1..]),
              if ProgressOf(early, t) == Sent then written + {t} else written,
              if WrittenEarly(t, early, fates) then events + [EventOf(t.row, w.outbox[t.row])] else events)
  {
    var t, left := q[j], Elements(kept) + Elements(q[j..]);
    delivered' := delivered;
    FirstTicket(q, j);
    assert t in left && left - {t} == Elements(kept) + Elements(q[j + 1..]);
    assert Elements(kept + [t]) + Elements(q[j + 1..]) == left;
    hide InCycle, Elements;
    match ProgressOf(early, t) {
      case Waiting =>
      case Sent => Writes(w, r, c, rows, next, delivered, left, written, events, t);
      case Reported =>
        if fates[t] == NotWritten {
          FailsToWrite(w, r, c, rows, next, delivered, left, written, events, t);
        } else {
          WritesAndReports(w, r, c, rows, next, delivered, left, written, events, t, fates[t] == Acked);
          delivered' := if fates[t] == Acked && t.cycle == c then delivered + [t.row] else delivered;
        }
    }
  }

  /** What the producer has made of the first `j` tickets of its queue. */
  ghost predicate Pumped(w: World, q: seq<Ticket>, u: set<Ticket>, j: nat, early: map<Ticket, Progress>,
                         fates: map<Ticket, Fate>,
                         queue: seq<Ticket>, unreported: set<Ticket>, log: seq<PaymentEvent>)
  {
    && j <= |q| && Distinct(q) && InOutbox(w.outbox, q) && (forall t :: t in q ==> t !in u && t in fates)
    && queue == StillQueued(q[..j], early)
    && unreported == u + SentOf(q[..j], early)
    && InOutbox(w.outbox, SentEarly(q[..j], early, fates))
    && log == w.events + EventsOf(w.outbox, SentEarly(q[..j], early, fates))
  }

  lemma PumpStarts(w: World, q: seq<Ticket>, u: set<Ticket>, early: map<Ticket, Progress>, fates: map<Ticket, Fate>,
                   log: seq<PaymentEvent>)
    requires Distinct(q) && InOutbox(w.outbox, q) && (forall t :: t in q ==> t !in u && t in fates) && log == w.events
    ensures Pumped(w, q, u, 0, early, fates, [], u, log)
    ensures Elements<Ticket>([]) + Elements(q[0..]) == Elements(q)
  {
    assert q[..0] == [] && q[0..] == q;
    assert SentOf(q[..0], early) == {};
  }

  /** The sums over the queue after one ticket more. */
  lemma PumpedGrows(w: World, q: seq<Ticket>, u: set<Ticket>, j: nat, early: map<Ticket, Progress>,
                    fates: map<Ticket, Fate>, queue: seq<Ticket>, unreported: set<Ticket>, log: seq<PaymentEvent>)
    requires j < |q| && Pumped(w, q, u, j, early, fates, queue, unreported, log)
    ensures var t := q[j];
      Pumped(w, q, u, j + 1, early, fates, if ProgressOf(early, t) == Waiting then queue + [t] else queue,
             if ProgressOf(early, t) == Sent then unreported + {t} else unreported,
             if WrittenEarly(t, early, fates) then log + [EventOf(t.row, w.outbox[t.row])] else log)
  {
    EarlyGrows(q, j, early, fates);
    hide StillQueued, SentEarly, SentOf, EventOf, Distinct, WrittenEarly;
  }

  lemma PumpStep(w: World, r: string, c: nat, rows: seq<string>, next: nat, delivered: seq<string>, q: seq<Ticket>,
                 u: set<Ticket>, j: nat,
                 early: map<Ticket, Progress>, fates: map<Ticket, Fate>, queue: seq<Ticket>, unreported: set<Ticket>,
                 log: seq<PaymentEvent>) returns (delivered': seq<string>)
    requires j < |q| && Pumped(w, q, u, j, early, fates, queue, unreported, log)
    requires InCycle(w, r, c, rows, next, delivered, Elements(queue) + Elements(q[j..]), unreported, log)
    ensures q[j].row in w.outbox
    ensures var t := q[j];
      var queue' := if ProgressOf(early, t) == Waiting then queue + [t] else queue;
      var unreported' := if ProgressOf(early, t) == Sent then unreported + {t} else unreported;
      var log' := if WrittenEarly(t, early, fates) then log + [EventOf(t.row, w.outbox[t.row])] else log;
      && Pumped(w, q, u, j + 1, early, fates, queue', unreported', log')
      && InCycle(w, r, c, rows, next, delivered', Elements(queue') + Elements(q[j + 1..]), unreported', log')
  {
    FirstTicket(q, j);
    EarlyIn(q[..j], early, fates);
    PumpedGrows(w, q, u, j, early, fates, queue, unreported, log);
    hide InCycle, StillQueued, SentEarly, EventsOf, Distinct;
    delivered' := EarlyStep(w, r, c, rows, next, delivered, queue, q, j, unreported, log, early, fates);
  }

  lemma PumpEnds(w: World, r: string, c: nat, rows: seq<string>, next: nat, delivered: seq<string>, q: seq<Ticket>,
                 u: set<Ticket>, early: map<Ticket, Progress>, fates: map<Ticket, Fate>, queue: seq<Ticket>,
                 unreported: set<Ticket>, log: seq<PaymentEvent>, told: set<Ticket>)
    requires Pumped(w, q, u, |q|, early, fates, queue, unreported, log)
    requires InCycle(w, r, c, rows, next, delivered, Elements(queue) + Elements(q[|q|..]), unreported, log)
    requires told == set t | t in u && ProgressOf(early, t) == Reported
    ensures queue == StillQueued(q, early) && unreported - told == StillUnreported(u, q, early)
    ensures InOutbox(w.outbox, SentEarly(q, early, fates))
    ensures log == w.events + EventsOf(w.outbox, SentEarly(q, early, fates))
    ensures InCycle(w, r, c, rows, next, delivered, Elements(queue), unreported - told, log)
  {
    assert q[..|q|] == q && Elements(q[|q|..]) == {};
    assert Elements(queue) + {} == Elements(queue);
    EarlyIn(q, early, fates);
    hide InCycle, StillQueued, SentEarly, EventsOf, Distinct;
    OldReports(w, r, c, rows, next, delivered, Elements(queue), unreported, log, told);
  }

  lemma OutstandingShrinks(outbox: map<string, OutboxRow>, queue: seq<Ticket>, unreported: set<Ticket>,
                           early: map<Ticket, Progress>, fates: map<Ticket, Fate>, c: nat)
    requires Outstanding(outbox, queue, unreported, c)
    ensures Outstanding(outbox, StillQueued(queue, early), StillUnreported(unreported, queue, early), c)
  {
    EarlyIn(queue, early, fates);
  }

  /** Old tickets and new ones never coincide, because their cycles differ. */
  lemma QueueGrows(outbox: map<string, OutboxRow>, queue: seq<Ticket>, unreported: set<Ticket>, rows: seq<string>,
                   n: nat, c: nat)
    requires c > 0 && Outstanding(outbox, queue, unreported, c - 1) && Distinct(rows) && n <= |rows|
    ensures Outstanding(outbox, queue + Serializable(outbox, rows[..n], c), unreported, c)
  {
    assert Distinct(rows[..n]);
    SerializableIn(outbox, rows[..n], c);
  }

  /** What a rolled-back cycle may leave behind: distinct tickets of rows of the outbox, none of a cycle to come. */
  ghost predicate Outstanding(outbox: map<string, OutboxRow>, queue: seq<Ticket>, unreported: set<Ticket>, c: nat) {
    && Distinct(queue) && InOutbox(outbox, queue) && (forall t :: t in queue ==> t !in unreported)
    && (forall t :: t in queue || t in unreported ==> t.cycle <= c)
  }
}
