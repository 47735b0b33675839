/** Convergence: left alone without faults, the saga settles every captured payment, in any interleaving. */
module SagaConvergence {
  import opened Prelude
  import opened Payments
  import opened Ledger
  import opened SagaMachine
  import opened SagaInvariant
  import opened SagaGuarantees
  import opened SagaProgress

  // ------------------------------------------------------------------------ outcome

  ghost predicate HasEntry(b: Books, pid: string) {
    exists i :: 0 <= i < |b.entries| && b.entries[i].paymentId == pid
  }

  /** Exactly one entry. */
  ghost predicate HasOneEntry(b: Books, pid: string) {
    && HasEntry(b, pid)
    && forall i, j :: 0 <= i < j < |b.entries| ==> b.entries[i].paymentId != pid || b.entries[j].paymentId != pid
  }

  /** The end of a captured payment: booked once if its currency is supported, voided and unbooked if not. */
  ghost predicate WellSettled(w: World, pid: string)
    requires pid in w.payments
  {
    if Supported(w.payments[pid].currency)
    then w.payments[pid].status == Captured && HasOneEntry(w.books, pid)
    else w.payments[pid].status == Voided && !HasEntry(w.books, pid)
  }

  /** The payment's event or outcome went to a dead-letter topic, or was lost on the way there. */
  ghost predicate DeadLettered(w: World, pid: string) {
    || (exists i ::
        0 <= i < |w.events| && w.events[i].paymentId == pid && (w.events[i] in w.eventsDlq || i in w.eventsDropped))
    || (exists j ::
        0 <= j < |w.outcomes| && w.outcomes[j].paymentId == pid &&
        (w.outcomes[j] in w.outcomesDlq || j in w.outcomesDropped))
  }

  /** A captured payment has its one row, which is PUBLISHED by then, so its event is in the topic. */
  lemma EventIsOut(w: World, pid: string) returns (e: string)
    requires Inv(w) && NothingLeft(w) && pid in w.payments && w.payments[pid].status != Authorized
    ensures e in w.outbox && w.outbox[e].paymentId == pid && EventOf(e, w.outbox[e]) in w.events
    ensures w.outbox[e].currency == w.payments[pid].currency
  {
    hide RelaysSound, BooksSound, OutcomesSound, PostersSound, CompensatorsSound;
    assert PaymentSound(w.outbox, pid, w.payments[pid]);
    e :| e in w.outbox && w.outbox[e].paymentId == pid;
    assert RowMatches(w.payments, w.outbox[e]);
    assert e !in PendingRows(w.outbox);
  }

  /** Its outcome is in the topic and acted on, unless something was dead-lettered on the way. */
  lemma OutcomeIsOut(w: World, ev: PaymentEvent) returns (j: nat)
    requires Inv(w) && NothingLeft(w) && ev in w.events && !DeadLettered(w, ev.paymentId)
    ensures j < |w.outcomes| && w.outcomes[j] == OutcomeFor(ev)
    ensures OutcomeFor(ev).status == Posted || IsVoided(w.payments, ev.paymentId)
    ensures OutcomeSound(w.outbox, w.books.entries, w.outcomes[j])
  {
    hide PaymentsSound, EventsSound, RelaysSound, BooksSound;
    var i :| 0 <= i < |w.events| && w.events[i] == ev;
    assert Handled(w, i);
    assert OutcomeFor(ev) in w.outcomes;
    j :| 0 <= j < |w.outcomes| && w.outcomes[j] == OutcomeFor(ev);
    assert SettledBelow(w, w.outcomesCommitted);
    assert Settled(w, j);
  }

  /** With nothing left to do, every payment ever captured is well settled, unless it was dead-lettered. */
  lemma FinishedIsSettled(w: World, pid: string)
    requires Inv(w) && NothingLeft(w) && pid in w.payments && w.payments[pid].status != Authorized
    ensures WellSettled(w, pid) || DeadLettered(w, pid)
  {
    hide Inv, NothingLeft, DeadLettered, HasEntry, HasOneEntry;
    if !DeadLettered(w, pid) {
      var e := EventIsOut(w, pid);
      var ev := EventOf(e, w.outbox[e]);
      var j := OutcomeIsOut(w, ev);
      assert SourceOf(OutcomeFor(ev)) == e;
      CapturedIsNotFailed(w, pid);
      if Supported(ev.currency) {
        BookedByEvent(w, e);
      } else {
        UnsupportedUnbooked(w, pid);
      }
    }
  }

  lemma CapturedIsNotFailed(w: World, pid: string)
    requires Inv(w) && pid in w.payments
    ensures w.payments[pid].status != Failed
    ensures w.payments[pid].status == Voided ==> !Supported(w.payments[pid].currency)
  {
    hide RelaysSound, BooksSound, OutcomesSound, PostersSound, CompensatorsSound;
    assert PaymentSound(w.outbox, pid, w.payments[pid]);
  }

  lemma BookedByEvent(w: World, e: string)
    requires Inv(w) && e in w.outbox && IsPosted(w.books.entries, e)
    ensures HasOneEntry(w.books, w.outbox[e].paymentId)
  {
    OneEntryEach(w);
    var i :| 0 <= i < |w.books.entries| && w.books.entries[i].eventId == e;
    assert EntrySound(w.outbox, w.books, i);
  }

  lemma UnsupportedUnbooked(w: World, pid: string)
    requires Inv(w) && pid in w.payments && !Supported(w.payments[pid].currency)
    ensures !HasEntry(w.books, pid)
  {
    forall i | 0 <= i < |w.books.entries| ensures w.books.entries[i].paymentId != pid {
      assert EntrySound(w.outbox, w.books, i);
      assert RowMatches(w.payments, w.outbox[w.books.entries[i].eventId]);
    }
  }

  // --------------------------------------------------------------------------- cash

  /** What a payment contributes to its tenant's cash. */
  function Contribution(payments: map<string, Payment>, tenant: string, pid: string): int {
    if pid in payments && payments[pid].tenant == tenant && payments[pid].status == Captured then payments[pid].amount
      else 0
  }

  /** The sum of a set of payments' contributions, taken in any order. */
  ghost function TotalOf(payments: map<string, Payment>, tenant: string, ids: set<string>): int
    decreases |ids|
  {
    if ids == {} then 0
    else var pid :| pid in ids; Contribution(payments, tenant, pid) + TotalOf(payments, tenant, ids - {pid})
  }

  lemma {:induction false} TotalRemove(payments: map<string, Payment>, tenant: string, ids: set<string>, pid: string)
    requires pid in ids
    ensures TotalOf(payments, tenant, ids) ==
      Contribution(payments, tenant, pid) + TotalOf(payments, tenant, ids - {pid})
    decreases |ids|
  {
    var first :| first in ids && TotalOf(payments, tenant, ids) ==
                                 Contribution(payments, tenant, first) + TotalOf(payments, tenant, ids - {first});
    if first != pid {
      TotalRemove(payments, tenant, ids - {first}, pid);
      TotalRemove(payments, tenant, ids - {pid}, first);
      assert ids - {first} - {pid} == ids - {pid} - {first};
    }
  }

  /** Payments that contribute nothing may be left out. */
  lemma {:induction false} TotalIgnores(payments: map<string, Payment>, tenant: string, ids: set<string>,
                                        more: set<string>)
    requires ids <= more && forall p :: p in more && p !in ids ==> Contribution(payments, tenant, p) == 0
    ensures TotalOf(payments, tenant, more) == TotalOf(payments, tenant, ids)
    decreases |more|
  {
    if p :| p in more && p !in ids {
      TotalRemove(payments, tenant, more, p);
      TotalIgnores(payments, tenant, ids, more - {p});
    } else {
      assert ids == more;
    }
  }

  function Booked(b: Books, n: nat): set<string>
    requires n <= |b.entries|
  {
    set i | 0 <= i < n :: b.entries[i].paymentId
  }

  /** Posted amounts, summed in journal order, are the contributions of the booked payments. */
  lemma {:induction false} PostedIsContributed(w: World, tenant: string, n: nat)
    requires Reachable(w) && n <= |w.books.entries| && |w.books.lines| == 2 * |w.books.entries|
    ensures PostedTotal(w.books, tenant, n) == TotalOf(w.payments, tenant, Booked(w.books, n))
  {
    if n > 0 {
      var b, last := w.books, n - 1;
      var pid := b.entries[last].paymentId;
      PostedIsContributed(w, tenant, last);
      ExactlyOncePosting(w);
      assert pid !in Booked(b, last);
      assert Booked(b, n) - {pid} == Booked(b, last);
      TotalRemove(w.payments, tenant, Booked(b, n), pid);
      EntryContributes(w, tenant, last);
    }
  }

  lemma EntryContributes(w: World, tenant: string, i: nat)
    requires Reachable(w) && i < |w.books.entries| && |w.books.lines| == 2 * |w.books.entries|
    ensures Contribution(w.payments, tenant, w.books.entries[i].paymentId) ==
            if w.books.entries[i].tenant == tenant then AmountOf(w.books, i) else 0
  {
    NeverBookedAndVoided(w);
    EntryHasItsTwoLines(w, i);
    ReachableSound(w);
    assert EntrySound(w.outbox, w.books, i);
    assert RowMatches(w.payments, w.outbox[w.books.entries[i].eventId]);
  }

  ghost predicate NothingDeadLettered(w: World) {
    w.eventsDlq == [] && w.outcomesDlq == [] && w.eventsDropped == {} && w.outcomesDropped == {}
  }

  lemma CapturedIsBooked(w: World, p: string)
    requires Inv(w) && NothingLeft(w) && NothingDeadLettered(w) && p in w.payments && w.payments[p].status == Captured
    ensures p in Booked(w.books, |w.books.entries|)
  {
    hide Inv;
    FinishedIsSettled(w, p);
    assert HasEntry(w.books, p);
  }

  lemma BookedAreCaptured(w: World, n: nat)
    requires Reachable(w) && n <= |w.books.entries|
    ensures Booked(w.books, n) <= w.payments.Keys
  {
    hide Reachable;
    NeverBookedAndVoided(w);
  }

  /** When the work is done and nothing was dead-lettered, each tenant's CASH is the sum of its CAPTURED payments. */
  lemma CashIsWhatWasCaptured(w: World, tenant: string)
    requires Reachable(w) && NothingLeft(w) && NothingDeadLettered(w)
    ensures Balance(w.books.lines, tenant, CASH) == TotalOf(w.payments, tenant, w.payments.Keys)
  {
    hide Reachable, PostedTotal, Balance, Booked, TotalOf, NothingLeft, NothingDeadLettered, Inv;
    var n := |w.books.entries|;
    BooksAlwaysBalance(w, tenant, "");
    PostedIsContributed(w, tenant, n);
    BookedAreCaptured(w, n);
    ReachableSound(w);
    forall p | p in w.payments.Keys && w.payments[p].status == Captured ensures p in Booked(w.books, n) {
      CapturedIsBooked(w, p);
    }
    TotalIgnores(w.payments, tenant, Booked(w.books, n), w.payments.Keys);
  }

  // ------------------------------------------------------------------------ restart

  /** A crash and restart of processes: tables, logs and offsets stay as they are. */
  ghost predicate SameStores(w: World, w': World) {
    w' == w.(relays := w'.relays, posters := w'.posters, compensators := w'.compensators)
  }

  ghost predicate NoLocks(relays: map<string, Relay>) {
    forall r :: r in relays ==> relays[r].phase == Resting
  }

  ghost predicate NoneInserting(posters: map<string, Worker<Poster>>) {
    forall k :: k in posters && posters[k].Busy? ==> !posters[k].phase.Inserted?
  }

  function OpenCycles(relays: map<string, Relay>): set<string> {
    set r | r in relays && relays[r].phase != Resting
  }

  function OpenInserts(posters: map<string, Worker<Poster>>): set<string> {
    set k | k in posters && posters[k].Busy? && posters[k].phase.Inserted?
  }

  lemma {:induction false} RollBackAll(w: World) returns (run: seq<Action>)
    ensures IsRun(w, run)
    ensures var w' := Exec(w, run);
            && NoLocks(w'.relays) && w'.relays.Keys == w.relays.Keys
            && w' == w.(relays := w'.relays)
    decreases |OpenCycles(w.relays)|
  {
    if OpenCycles(w.relays) == {} {
      run := [];
      forall r | r in w.relays ensures w.relays[r].phase == Resting {
        assert r !in OpenCycles(w.relays);
      }
    } else {
      var r :| r in OpenCycles(w.relays);
      var a := RelayStep(r, Rollback);
      var w1 := Next(w, a);
      assert OpenCycles(w1.relays) == OpenCycles(w.relays) - {r};
      hide Enabled, Next;
      var rest := RollBackAll(w1);
      RunCons(w, a, rest);
      run := [a] + rest;
    }
  }

  lemma {:induction false} CrashInserts(w: World) returns (run: seq<Action>)
    ensures IsRun(w, run)
    ensures var w' := Exec(w, run);
            && NoneInserting(w'.posters) && w'.posters.Keys == w.posters.Keys
            && w' == w.(posters := w'.posters)
    decreases |OpenInserts(w.posters)|
  {
    if OpenInserts(w.posters) == {} {
      run := [];
      forall k | k in w.posters && w.posters[k].Busy? ensures !w.posters[k].phase.Inserted? {
        assert k !in OpenInserts(w.posters);
      }
    } else {
      var k :| k in OpenInserts(w.posters);
      var a := PosterStep(k, Crash);
      var w1 := Next(w, a);
      assert OpenInserts(w1.posters) == OpenInserts(w.posters) - {k};
      hide Enabled, Next;
      var rest := CrashInserts(w1);
      RunCons(w, a, rest);
      run := [a] + rest;
    }
  }

  /** A crew no process of which has ever run. */
  ghost predicate NewCrew(w: World, c: Crew) {
    && c.relays != [] && Distinct(c.relays) && (forall r :: r in c.relays ==> r !in w.relays)
    && c.poster !in w.posters && c.compensator !in w.compensators && c.limit > 0
  }

  lemma StartCrew(w: World, c: Crew)
    requires NoLocks(w.relays) && NoneInserting(w.posters) && NewCrew(w, c)
    ensures var run := [PosterStep(c.poster, Start), SagaMachine.SagaStep(c.compensator, Start)];
            && IsRun(w, run) && Working(Exec(w, run), c) && AtRest(Exec(w, run), c) && SameStores(w, Exec(w, run))
  {
    var a, b := PosterStep(c.poster, Start), SagaMachine.SagaStep(c.compensator, Start);
    var w1 := w.(posters := w.posters[c.poster := Idle(w.eventsCommitted)]);
    var w2 := w1.(compensators := w1.compensators[c.compensator := Idle(w.outcomesCommitted)]);
    assert Enabled(w, a) && Next(w, a) == w1;
    assert Enabled(w1, b) && Next(w1, b) == w2;
    assert Working(w2, c) && AtRest(w2, c);
    hide Enabled, Next, Working, AtRest;
    OneStep(w1, b);
    RunCons(w, a, [b]);
  }

  /** From any state, ending what is open and starting a new crew leads to one at rest with the same stores. */
  lemma Restart(w: World, c: Crew) returns (run: seq<Action>)
    requires NewCrew(w, c)
    ensures IsRun(w, run) && Working(Exec(w, run), c) && AtRest(Exec(w, run), c) && SameStores(w, Exec(w, run))
  {
    hide Enabled, Next, Working, AtRest, NoLocks, NoneInserting;
    var first := RollBackAll(w);
    var w1 := Exec(w, first);
    var second := CrashInserts(w1);
    var w2 := Exec(w1, second);
    RunConcat(w, first, second);
    var third := [PosterStep(c.poster, Start), SagaMachine.SagaStep(c.compensator, Start)];
    StartCrew(w2, c);
    RunConcat(w, first + second, third);
    run := first + second + third;
  }

  // -------------------------------------------------------------------- convergence

  /** Three for each PENDING row, two for each unread event, one for each unread outcome. */
  function Backlog(w: World): int {
    3 * |PendingRows(w.outbox)| + 2 * (|w.events| - w.eventsCommitted) + (|w.outcomes| - w.outcomesCommitted)
  }

  lemma WorkAtRest(w: World, c: Crew)
    requires AtRest(w, c)
    ensures Work(w, c) == Backlog(w)
  {
    TotalOfNothing(Shipped, w.relays, c.relays);
  }

  /**
   However a crew's fault-free steps interleave, it gets done exactly the work there is less what
   remains, in at most seven times as many steps. When no further step is possible, all of it is
   done, every payment ever captured is well settled unless it was dead-lettered, and no message
   was dead-lettered meanwhile.
   */
  lemma EveryRunSettles(w: World, c: Crew, run: seq<Action>)
    requires Reachable(w) && Working(w, c) && c.limit > 0 && HealthyRun(w, c, run)
    ensures |run| <= 7 * Work(w, c) && DoneBy(w, c, run) <= Work(w, c)
    ensures AtRest(w, c) ==> Work(w, c) == Backlog(w)
    ensures SameDeadLetters(w, Exec(w, run))
    ensures var w' := Exec(w, run);
      (forall a :: Enabled(w', a) ==> !Healthy(c, a)) ==>
        && NothingLeft(w') && DoneBy(w, c, run) == Work(w, c)
        && forall p :: p in w'.payments && w'.payments[p].status != Authorized ==>
          WellSettled(w', p) || DeadLettered(w', p)
  {
    ReachableSound(w);
    HealthyRunProgresses(w, c, run);
    var w' := Exec(w, run);
    StepsLeftBounds(w, c);
    StepsLeftBounds(w', c);
    if AtRest(w, c) {
      WorkAtRest(w, c);
    }
    hide Inv, Working, Enabled, Healthy, Work, StepsLeft, AtRest, NothingLeft, WellSettled, DeadLettered;
    if forall a :: Enabled(w', a) ==> !Healthy(c, a) {
      EndIsNothingLeft(w', c);
      forall p | p in w'.payments && w'.payments[p].status != Authorized
        ensures WellSettled(w', p) || DeadLettered(w', p) {
        FinishedIsSettled(w', p);
      }
    }
  }

  /** With nothing dead-lettered, each tenant's CASH is then the sum of its still CAPTURED payments. */
  lemma EveryRunBalancesCash(w: World, c: Crew, run: seq<Action>, tenant: string)
    requires Reachable(w) && Working(w, c) && c.limit > 0 && HealthyRun(w, c, run) && NothingDeadLettered(w)
    requires forall a :: Enabled(Exec(w, run), a) ==> !Healthy(c, a)
    ensures var w' := Exec(w, run);
      && Balance(w'.books.lines, tenant, CASH) == TotalOf(w'.payments, tenant, w'.payments.Keys)
      && forall p :: p in w'.payments && w'.payments[p].status != Authorized ==> WellSettled(w', p)
  {
    hide Inv, Working, Enabled, Healthy, Work, NothingLeft, WellSettled, Balance, TotalOf;
    EveryRunSettles(w, c, run);
    ReachableRun(w, run);
    CashIsWhatWasCaptured(Exec(w, run), tenant);
  }

  /**
   From any reachable state the saga can be brought to its end: a restart that loses nothing, and
   then a fault-free run of at most seven steps for each unit of the backlog.
   */
  lemma SagaConverges(w: World, c: Crew) returns (restart: seq<Action>, run: seq<Action>)
    requires Reachable(w) && NewCrew(w, c)
    ensures IsRun(w, restart) && SameStores(w, Exec(w, restart))
    ensures HealthyRun(Exec(w, restart), c, run) && |run| <= 7 * Backlog(w)
    ensures var w' := Exec(Exec(w, restart), run);
      && Reachable(w') && NothingLeft(w')
      && forall p :: p in w'.payments && w'.payments[p].status != Authorized ==>
        WellSettled(w', p) || DeadLettered(w', p)
  {
    hide Enabled, Next, Working, AtRest, Work, Inv, Healthy, NothingLeft, WellSettled, DeadLettered;
    restart := Restart(w, c);
    var w0 := Exec(w, restart);
    ReachableRun(w, restart);
    ReachableSound(w0);
    run := HealthyRunFinishes(w0, c);
    EveryRunSettles(w0, c, run);
    var w' := Exec(w0, run);
    ReachableRun(w0, run);
    ReachableSound(w');
    forall p | p in w'.payments && w'.payments[p].status != Authorized
      ensures WellSettled(w', p) || DeadLettered(w', p) {
      FinishedIsSettled(w', p);
    }
  }
}
