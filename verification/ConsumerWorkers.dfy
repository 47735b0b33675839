/**
 The two consumers as sequential code over their databases and topics. Handling one message is
 proved to be a run of the saga machine, so everything proved of the machine's runs holds of the
 code; a script says what the environment does to it: which calls raise, and whether the effect
 happened all the same.
 */
module ConsumerWorkers {
  import opened Payments
  import opened Ledger
  import opened SagaMachine
  import opened SagaRuns
  import opened Topics
  import Retry

  datatype CommitFault = Commits | CommitRaises | CommitsThenRaises

  /** Everything the environment decides while one message is handled. */
  datatype Script<+F> = Script(decodes: bool, attempts: seq<F>, commit: CommitFault, parks: bool, last: CommitFault)

  /** How many attempts are made: up to and including the first that goes through, or all of them. */
  function Tries<F(==)>(attempts: seq<F>, smooth: F): (n: nat)
    ensures n <= |attempts|
    ensures forall i :: 0 <= i < n - 1 ==> attempts[i] != smooth
  {
    if attempts == [] then 0 else if attempts[0] == smooth then 1 else 1 + Tries(attempts[1..], smooth)
  }

  /** The attempts that are made. */
  function Tried<F(==)>(attempts: seq<F>, smooth: F): seq<F> {
    attempts[..Tries(attempts, smooth)]
  }

  /** Whether the script ends in the dead-letter topic: something raised, and the write was delivered. */
  predicate Diverts<F(==)>(script: Script<F>, smooth: F) {
    !(script.decodes && Succeeds(script.attempts, smooth) && script.commit == Commits) && script.parks
  }

  predicate Succeeds<F(==)>(attempts: seq<F>, smooth: F) {
    smooth in attempts
  }

  /** When attempt `n` goes through after only failures, it is the last. */
  lemma {:induction false} TriesIs<F>(attempts: seq<F>, smooth: F, n: nat)
    requires n < |attempts| && smooth !in attempts[..n]
    ensures attempts[n] == smooth ==>
      Tries(attempts, smooth) == n + 1 && Tried(attempts, smooth) == attempts[..n + 1] && Succeeds(attempts, smooth)
    ensures attempts[n] != smooth ==> smooth !in attempts[..n + 1]
  {
    if n > 0 {
      assert attempts[0] == attempts[..n][0];
      assert attempts[1..][..n - 1] == attempts[..n][1..];
      TriesIs(attempts[1..], smooth, n - 1);
      assert attempts == [attempts[0]] + attempts[1..];
    }
    assert attempts[..n + 1] == attempts[..n] + [attempts[n]];
  }

  /** Tried attempts end with the first that goes through, if one does, and are all of them otherwise. */
  lemma {:induction false} TriedIs<F>(attempts: seq<F>, smooth: F)
    ensures smooth in attempts ==> smooth in Tried(attempts, smooth)
    ensures smooth !in attempts ==> Tried(attempts, smooth) == attempts
    ensures forall f :: f in Tried(attempts, smooth) ==> f in attempts
  {
    if attempts != [] && attempts[0] != smooth {
      TriedIs(attempts[1..], smooth);
      assert Tried(attempts, smooth) == [attempts[0]] + Tried(attempts[1..], smooth);
    }
  }

  /** When all attempts fail, all are made. */
  lemma {:induction false} AllFail<F>(attempts: seq<F>, smooth: F)
    requires smooth !in attempts
    ensures Tries(attempts, smooth) == |attempts| && Tried(attempts, smooth) == attempts
    ensures !Succeeds(attempts, smooth)
  {
    if attempts != [] {
      AllFail(attempts[1..], smooth);
    }
  }

  /** The same attempts as the retry helper sees them. */
  function AsAttempts<F(==)>(faults: seq<F>, smooth: F): (attempts: seq<Retry.Attempt<F>>)
    ensures |attempts| == |faults|
  {
    seq(|faults|, i requires 0 <= i < |faults| => if faults[i] == smooth then Retry.Returned(smooth) else Retry.Raised)
  }

  /** The attempts made are the helper's calls. */
  lemma {:induction false} TriesAreCalls<F>(faults: seq<F>, smooth: F)
    ensures Tries(faults, smooth) == Retry.Calls(AsAttempts(faults, smooth), |faults|)
  {
    if faults != [] {
      TriesAreCalls(faults[1..], smooth);
      assert AsAttempts(faults, smooth)[1..] == AsAttempts(faults[1..], smooth);
    }
  }

  // --------------------------------------------------------------- ledger consumer

  /** What goes wrong, if anything, in one attempt at posting and emitting. */
  datatype PostFault = Smooth | PostRaises | PostCommitsThenRaises | OutcomeNotWritten | OutcomeUnacked

  /** The books after some attempts: delivered once any of them got through its transaction. */
  function BooksAfter(b: Books, ev: PaymentEvent, faults: seq<PostFault>): Books {
    if faults == [] then b
    else if faults[|faults| - 1] == PostRaises then BooksAfter(b, ev, faults[..|faults| - 1])
    else Deliver(BooksAfter(b, ev, faults[..|faults| - 1]), ev)
  }

  predicate Emits(fault: PostFault) {
    fault == Smooth || fault == OutcomeUnacked
  }

  /** The copies of the event's one outcome that some attempts leave in the topic. */
  function OutcomesFrom(ev: PaymentEvent, faults: seq<PostFault>): seq<Outcome> {
    if faults == [] then []
    else OutcomesFrom(ev, faults[..|faults| - 1]) + if Emits(faults[|faults| - 1]) then [OutcomeFor(ev)] else []
  }

  /** What some attempts at an event have made of the books and the outcome topic. */
  ghost predicate Made(b: Books, log: seq<Outcome>, ev: PaymentEvent, faults: seq<PostFault>, b': Books,
                       log': seq<Outcome>) {
    b' == BooksAfter(b, ev, faults) && log' == log + OutcomesFrom(ev, faults)
  }

  /** One more attempt. */
  lemma AttemptAdds(b: Books, log: seq<Outcome>, ev: PaymentEvent, faults: seq<PostFault>, n: nat,
                    b1: Books, log1: seq<Outcome>, b2: Books, log2: seq<Outcome>)
    requires n < |faults| && Made(b, log, ev, faults[..n], b1, log1)
    requires b2 == (if faults[n] == PostRaises then b1 else Deliver(b1, ev))
    requires log2 == log1 + if Emits(faults[n]) then [OutcomeFor(ev)] else []
    ensures Made(b, log, ev, faults[..n + 1], b2, log2)
  {
    hide Deliver, OutcomeFor, Emits;
    assert faults[..n + 1][..n] == faults[..n];
  }

  /** However many attempts got through, the books take the event once. */
  lemma {:induction false} BooksAfterOnce(b: Books, ev: PaymentEvent, faults: seq<PostFault>)
    ensures BooksAfter(b, ev, faults) == if forall f :: f in faults ==> f == PostRaises then b else Deliver(b, ev)
  {
    if faults != [] {
      var init, last := faults[..|faults| - 1], faults[|faults| - 1];
      BooksAfterOnce(b, ev, init);
      assert last in faults && forall f :: f in faults <==> f in init || f == last;
      DeliverTwice(b, ev);
    }
  }

  /** Some attempt left the outcome in the topic, if any of them emits. */
  lemma {:induction false} OutcomesFromIs(ev: PaymentEvent, faults: seq<PostFault>)
    ensures OutcomeFor(ev) in OutcomesFrom(ev, faults) <==> exists f :: f in faults && Emits(f)
  {
    if faults != [] {
      var init, last := faults[..|faults| - 1], faults[|faults| - 1];
      OutcomesFromIs(ev, init);
      assert last in faults && forall f :: f in faults <==> f in init || f == last;
    }
  }

  /**
   Both answered and dead-lettered, exactly: the message could be read and the dead-letter write was
   delivered, and either an attempt went through and the commit after it raised, or none did and
   some attempt's outcome was written although it was reported as failed.
   */
  predicate AnswersAndParks(script: Script<PostFault>) {
    && script.decodes && script.parks
    && if Smooth in script.attempts then script.commit != Commits else OutcomeUnacked in script.attempts
  }

  /** Neither, exactly: the dead-letter write was lost, and no attempt's outcome was written. */
  predicate LeavesNothing(script: Script<PostFault>) {
    !script.parks && !(script.decodes && (Smooth in script.attempts || OutcomeUnacked in script.attempts))
  }

  lemma AnsweredAndParkedExactlyWhen(b: Books, log: seq<Outcome>, dlq: seq<PaymentEvent>, ev: PaymentEvent,
                                     script: Script<PostFault>, b': Books, log': seq<Outcome>,
                                     dlq': seq<PaymentEvent>)
    requires OutcomeFor(ev) !in log && ev !in dlq
    requires Made(b, log, ev, if script.decodes then Tried(script.attempts, Smooth) else [], b', log')
    requires dlq' == dlq + if Diverts(script, Smooth) then [ev] else []
    ensures OutcomeFor(ev) in log' && ev in dlq' <==> AnswersAndParks(script)
    ensures OutcomeFor(ev) !in log' && ev !in dlq' <==> LeavesNothing(script)
  {
    var tried := if script.decodes then Tried(script.attempts, Smooth) else [];
    OutcomesFromIs(ev, tried);
    TriedIs(script.attempts, Smooth);
    hide OutcomeFor, Tried;
    assert OutcomeFor(ev) in log' <==> exists f :: f in tried && Emits(f);
    assert ev in dlq' <==> Diverts(script, Smooth);
    assert Emits(Smooth) && Emits(OutcomeUnacked);
  }

  // ------------------------------------------- what one message comes to, in the ledger's own terms

  predicate Settles(currency: string) {
    currency == "USD" || currency == "EUR"
  }

  /** The message that tells the payment service: under an identifier of its own event, with the verdict and why. */
  function Told(ev: PaymentEvent): Outcome {
    Outcome("outcome:" + ev.eventId, ev.tenant, ev.paymentId, if Settles(ev.currency) then Posted else Rejected,
            if Settles(ev.currency) then "" else "unsupported settlement currency: " + ev.currency)
  }

  /** The event's two lines and its entry are new, or nothing is: not if it is rejected or was posted before. */
  ghost predicate BookedOnce(b: Books, ev: PaymentEvent, delivers: bool, b': Books) {
    if delivers && Settles(ev.currency) && forall e :: e in b.entries ==> e.eventId != ev.eventId then
      && b'.entries == b.entries + [Entry(ev.tenant, ev.eventId, ev.paymentId)]
      && b'.lines == b.lines + [Line(|b.entries|, ev.tenant, "CASH", Debit, ev.amount, ev.currency),
                                Line(|b.entries|, ev.tenant, "MERCHANT_PAYABLE", Credit, ev.amount, ev.currency)]
    else b' == b
  }

  /** Some attempt that is made has one of these faults. */
  ghost predicate SomeTried<F>(attempts: seq<F>, smooth: F, faults: set<F>) {
    exists k :: 0 <= k < |attempts| && attempts[k] in faults && forall m :: 0 <= m < k ==> attempts[m] != smooth
  }

  /** Copies of the one outcome were added, and some if an attempt wrote it. */
  ghost predicate ToldOnly(log: seq<Outcome>, ev: PaymentEvent, emits: bool, log': seq<Outcome>) {
    && log <= log' && (forall i :: |log| <= i < |log'| ==> log'[i] == Told(ev))
    && (emits <==> |log| < |log'|)
  }

  lemma DeliverIs(b: Books, ev: PaymentEvent)
    ensures BookedOnce(b, ev, true, Deliver(b, ev)) && OutcomeFor(ev) == Told(ev)
  {
  }

  lemma {:induction false} OutcomesAre(ev: PaymentEvent, faults: seq<PostFault>)
    ensures forall o :: o in OutcomesFrom(ev, faults) ==> o == OutcomeFor(ev)
    ensures OutcomesFrom(ev, faults) != [] <==> exists f :: f in faults && (f == Smooth || f == OutcomeUnacked)
  {
    if faults != [] {
      var init, last := faults[..|faults| - 1], faults[|faults| - 1];
      OutcomesAre(ev, init);
      assert last in faults && forall f :: f in faults <==> f in init || f == last;
    }
  }

  /** An attempt is made when none before it went through. */
  lemma {:induction false} TriedAre<F>(attempts: seq<F>, smooth: F, faults: set<F>)
    ensures SomeTried(attempts, smooth, faults) <==> exists f :: f in Tried(attempts, smooth) && f in faults
  {
    if attempts != [] && attempts[0] != smooth {
      var rest := attempts[1..];
      TriedAre(rest, smooth, faults);
      assert Tried(attempts, smooth) == [attempts[0]] + Tried(rest, smooth);
      if SomeTried(rest, smooth, faults) {
        var k :| 0 <= k < |rest| && rest[k] in faults && forall m :: 0 <= m < k ==> rest[m] != smooth;
        assert attempts[k + 1] == rest[k] && forall m :: 0 < m < k + 1 ==> attempts[m] == rest[m - 1];
      }
      if k :| 0 <= k < |attempts| && attempts[k] in faults && forall m :: 0 <= m < k ==> attempts[m] != smooth {
        if k > 0 {
          assert rest[k - 1] == attempts[k] && forall m :: 0 <= m < k - 1 ==> rest[m] == attempts[m + 1];
        } else {
          assert attempts[0] in Tried(attempts, smooth);
        }
      }
    } else if attempts != [] {
      assert Tried(attempts, smooth) == [smooth];
    }
  }

  const DELIVERS := {Smooth, PostCommitsThenRaises, OutcomeNotWritten, OutcomeUnacked}
  const EMITS := {Smooth, OutcomeUnacked}

  /** What the attempts at a message that can be read make of the books and of the outcome topic. */
  lemma MadeMeans(b: Books, log: seq<Outcome>, ev: PaymentEvent, attempts: seq<PostFault>, b': Books,
                  log': seq<Outcome>)
    requires Made(b, log, ev, Tried(attempts, Smooth), b', log')
    ensures BookedOnce(b, ev, SomeTried(attempts, Smooth, DELIVERS), b')
    ensures ToldOnly(log, ev, SomeTried(attempts, Smooth, EMITS), log')
  {
    var tried := Tried(attempts, Smooth);
    BooksAfterOnce(b, ev, tried);
    OutcomesAre(ev, tried);
    TriedAre(attempts, Smooth, DELIVERS);
    TriedAre(attempts, Smooth, EMITS);
    DeliverIs(b, ev);
    hide SomeTried, Tried, Deliver, OutcomeFor, Told, BooksAfter, OutcomesFrom;
    assert (exists f :: f in tried && f in DELIVERS) <==> exists f :: f in tried && f != PostRaises;
    assert (exists f :: f in tried && f in EMITS) <==> exists f :: f in tried && (f == Smooth || f == OutcomeUnacked);
    forall i | |log| <= i < |log'| ensures log'[i] == Told(ev) {
      var emitted := OutcomesFrom(ev, tried);
      assert log' == log + emitted && emitted[i - |log|] in emitted;
    }
    assert BookedOnce(b, ev, exists f :: f in tried && f != PostRaises, b');
  }

  lemma HandledMeans(b: Books, log: seq<Outcome>, ev: PaymentEvent, script: Script<PostFault>, b': Books,
                     log': seq<Outcome>)
    requires Made(b, log, ev, if script.decodes then Tried(script.attempts, Smooth) else [], b', log')
    ensures BookedOnce(b, ev, script.decodes && SomeTried(script.attempts, Smooth, DELIVERS), b')
    ensures ToldOnly(log, ev, script.decodes && SomeTried(script.attempts, Smooth, EMITS), log')
  {
    if script.decodes {
      hide BookedOnce, ToldOnly, SomeTried, Made;
      MadeMeans(b, log, ev, script.attempts, b', log');
    }
  }

  lemma DeliverTwice(b: Books, ev: PaymentEvent)
    ensures Deliver(Deliver(b, ev), ev) == Deliver(b, ev)
  {
    if Supported(ev.currency) && !IsPosted(b.entries, ev.eventId) {
      assert AddEntry(b, ev).entries[|b.entries|].eventId == ev.eventId;
    }
  }

  /** Consumer `k` is at `pos` in `phase`, and no other transaction holds the event in the unique index. */
  ghost predicate At(w: World, k: string, pos: nat, phase: Poster) {
    && PosterOf(w, k) == Busy(pos, phase) && pos < |w.events|
    && !InsertBlocked(w.posters, w.events, k, w.events[pos].eventId)
  }

  /** From `w`, consumer `k` alone has come to `w'` in `phase`, with these books and outcomes. */
  ghost predicate Led(w0: World, w: World, w': World, k: string, pos: nat, phase: Poster, books: Books,
                      outcomes: seq<Outcome>) {
    && Reaches(w0, w')
    && At(w', k, pos, phase)
    && w'.books == books && w'.outcomes == outcomes
    && w'.events == w.events && w'.eventsDlq == w.eventsDlq && w'.eventsCommitted == w.eventsCommitted
  }

  /** One sub-step of an attempt. */
  lemma PosterTakes(w0: World, w: World, k: string, pos: nat, phase: Poster, h: PostAction) returns (w': World)
    requires Reaches(w0, w) && At(w, k, pos, phase) && PostEnabled(w.events[pos], phase, h)
    requires PostNext(pos, w.events[pos], IsPosted(w.books.entries, w.events[pos].eventId), phase, h).Busy?
    requires !h.CommitOffset? && !h.Park?
    ensures var ev := w.events[pos];
      Led(w0, w, w', k, pos, PostNext(pos, ev, IsPosted(w.books.entries, ev.eventId), phase, h).phase,
          if h.CommitPosting? then AddEntry(w.books, ev) else w.books,
          if h.Emit? then w.outcomes + [MakeOutcome(ev, phase.status, phase.reason)] else w.outcomes)
  {
    PosterDoes(w, k, h);
    w' := Next(w, PosterStep(k, Handle(h)));
    hide Enabled, Next, InsertBlocked, IsPosted, AddEntry;
    ReachesStep(w0, w, PosterStep(k, Handle(h)));
    assert !h.CommitParked?;
  }

  /** The posting transaction, which may be reported as failed after it took effect. */
  lemma PostingRuns(w: World, k: string, pos: nat, a: nat, raised: bool) returns (w': World)
    requires At(w, k, pos, Posting(a))
    ensures var ev := w.events[pos];
      Led(w, w, w', k, pos, if raised then AfterFailure(a) else Emitting(a, Judge(ev.currency), Reason(ev.currency)),
          Deliver(w.books, ev), w.outcomes)
  {
    var ev := w.events[pos];
    hide At, Reaches, AddEntry, IsPosted, Reason;
    ReachesSelf(w);
    if !Supported(ev.currency) {
      w' := PosterTakes(w, w, k, pos, Posting(a), Refuse);
    } else {
      w' := PosterTakes(w, w, k, pos, Posting(a), Check);
    }
    if Supported(ev.currency) && !IsPosted(w.books.entries, ev.eventId) {
      w' := PosterTakes(w, w', k, pos, Inserting(a), Insert);
      w' := PosterTakes(w, w', k, pos, Inserted(a), CommitPosting(raised));
    } else if raised {
      // Nothing was written, so an exception at the end of the transaction undoes nothing.
      w' := PosterTakes(w, w', k, pos, Emitting(a, Judge(ev.currency), Reason(ev.currency)), Fail);
    }
  }

  /** One whole attempt, whatever goes wrong in it. */
  lemma AttemptRuns(w0: World, w: World, k: string, pos: nat, a: nat, fault: PostFault) returns (w': World)
    requires Led(w0, w0, w, k, pos, Posting(a), w.books, w.outcomes)
    ensures var ev := w.events[pos];
      Led(w0, w0, w', k, pos, if fault == Smooth then Confirming else AfterFailure(a),
          if fault == PostRaises then w.books else Deliver(w.books, ev),
          w.outcomes + if Emits(fault) then [OutcomeFor(ev)] else [])
  {
    var ev := w.events[pos];
    hide At, Reaches, Deliver, Reason, AfterFailure;
    if fault == PostRaises {
      w' := PosterTakes(w0, w, k, pos, Posting(a), Fail);
    } else {
      w' := PostingRuns(w, k, pos, a, fault == PostCommitsThenRaises);
      ReachesTransitive(w0, w, w');
      var judged := Emitting(a, Judge(ev.currency), Reason(ev.currency));
      match fault
      case OutcomeNotWritten => w' := PosterTakes(w0, w', k, pos, judged, Fail);
      case OutcomeUnacked => w' := PosterTakes(w0, w', k, pos, judged, Emit(true));
      case Smooth => w' := PosterTakes(w0, w', k, pos, judged, Emit(false));
      case _ =>
    }
  }

  /** The steps that end a message: the offset moves, or the process dies. */
  ghost predicate Ended(w0: World, w: World, w': World, k: string, now: Worker<Poster>, committed: nat,
                        dlq: seq<PaymentEvent>) {
    && Reaches(w0, w') && PosterOf(w', k) == now
    && w'.eventsCommitted == committed && w'.eventsDlq == dlq
    && w'.books == w.books && w'.outcomes == w.outcomes && w'.events == w.events
  }

  lemma CommitRuns(w0: World, w: World, k: string, pos: nat, raised: bool) returns (w': World)
    requires Reaches(w0, w) && At(w, k, pos, Confirming)
    ensures Ended(w0, w, w', k, if raised then Busy(pos, Parking) else Idle(pos + 1), pos + 1, w.eventsDlq)
  {
    PosterDoes(w, k, CommitOffset(raised));
    w' := Next(w, PosterStep(k, Handle(CommitOffset(raised))));
    hide Enabled, Next, InsertBlocked;
    ReachesStep(w0, w, PosterStep(k, Handle(CommitOffset(raised))));
  }

  lemma ParkRuns(w0: World, w: World, k: string, pos: nat, parks: bool) returns (w': World)
    requires Reaches(w0, w) && PosterOf(w, k) == Busy(pos, Parking) && pos < |w.events|
    ensures Ended(w0, w, w', k, Busy(pos, Parked), w.eventsCommitted,
                  w.eventsDlq + if parks then [w.events[pos]] else [])
  {
    PosterDoes(w, k, Park(parks));
    w' := Next(w, PosterStep(k, Handle(Park(parks))));
    hide Enabled, Next, InsertBlocked;
    ReachesStep(w0, w, PosterStep(k, Handle(Park(parks))));
  }

  lemma CommitParkedRuns(w0: World, w: World, k: string, pos: nat) returns (w': World)
    requires Reaches(w0, w) && PosterOf(w, k) == Busy(pos, Parked) && pos < |w.events|
    ensures Ended(w0, w, w', k, Idle(pos + 1), pos + 1, w.eventsDlq)
  {
    PosterDoes(w, k, CommitParked);
    w' := Next(w, PosterStep(k, Handle(CommitParked)));
    hide Enabled, Next, InsertBlocked;
    ReachesStep(w0, w, PosterStep(k, Handle(CommitParked)));
  }

  lemma PosterDies(w0: World, w: World, k: string) returns (w': World)
    requires Reaches(w0, w)
    ensures Ended(w0, w, w', k, Down, w.eventsCommitted, w.eventsDlq)
  {
    var a := PosterStep(k, Crash);
    assert Enabled(w, a) && Next(w, a) == w.(posters := w.posters[k := Down]);
    w' := Next(w, a);
    hide Enabled, Next;
    ReachesStep(w0, w, a);
  }

  /** Park the message and move past it; an exception of that last commit ends the process, committed or not. */
  lemma ParkingRuns(w0: World, w: World, k: string, pos: nat, parks: bool, last: CommitFault) returns (w': World)
    requires Reaches(w0, w) && PosterOf(w, k) == Busy(pos, Parking) && pos < |w.events|
    ensures Ended(w0, w, w', k, if last == Commits then Idle(pos + 1) else Down,
                  if last == CommitRaises then w.eventsCommitted else pos + 1,
                  w.eventsDlq + if parks then [w.events[pos]] else [])
  {
    hide Reaches;
    w' := ParkRuns(w0, w, k, pos, parks);
    if last != CommitRaises {
      w' := CommitParkedRuns(w0, w', k, pos);
    }
    if last != Commits {
      w' := PosterDies(w0, w', k);
    }
  }

  lemma DecodeRuns(w0: World, w: World, k: string, pos: nat, ok: bool) returns (w': World)
    requires Reaches(w0, w) && At(w, k, pos, Decoding)
    ensures Led(w0, w, w', k, pos, if ok then Posting(0) else Parking, w.books, w.outcomes)
  {
    hide At, Reaches;
    w' := PosterTakes(w0, w, k, pos, Decoding, Decode(ok));
  }

  lemma RefusedRuns(w0: World, w: World, k: string, pos: nat) returns (w': World)
    requires Reaches(w0, w) && At(w, k, pos, Confirming)
    ensures Led(w0, w, w', k, pos, Parking, w.books, w.outcomes)
  {
    hide At, Reaches;
    w' := PosterTakes(w0, w, k, pos, Confirming, CommitRefused);
  }

  lemma NothingTried(ev: PaymentEvent, b: Books, log: seq<Outcome>)
    ensures Made(b, log, ev, [], b, log)
  {
  }

  class LedgerConsumer {
    const name: string
    const ledger: LedgerService
    const source: Topic<PaymentEvent>
    const sink: Topic<Outcome>

    constructor (name: string, ledger: LedgerService, source: Topic<PaymentEvent>, sink: Topic<Outcome>)
      ensures this.name == name && this.ledger == ledger && this.source == source && this.sink == sink
    {
      this.name, this.ledger, this.source, this.sink := name, ledger, source, sink;
    }

    /** The books, the two topics and the committed offset are as world `w` has them. */
    ghost predicate Shows(w: World)
      reads ledger, source, sink
    {
      && ledger.Contents() == w.books && Sound(w.books)
      && source.log == w.events && source.dlq == w.eventsDlq && source.committed == w.eventsCommitted
      && sink.log == w.outcomes
    }

    /** One attempt: post, then emit and wait for the broker; an exception ends it at the fault. */
    method Process(pos: nat, fault: PostFault, ghost a: nat, ghost w0: World, ghost w: World)
      returns (raised: bool, ghost w': World)
      requires pos < |w0.events| && source.log == w0.events && Sound(ledger.Contents())
      requires Led(w0, w0, w, name, pos, Posting(a), ledger.Contents(), sink.log)
      modifies ledger, sink`log
      ensures Sound(ledger.Contents())
      ensures Led(w0, w0, w', name, pos, if raised then AfterFailure(a) else Confirming, ledger.Contents(), sink.log)
      ensures raised <==> fault != Smooth
      ensures ledger.Contents() ==
              if fault == PostRaises then old(ledger.Contents()) else Deliver(old(ledger.Contents()), source.log[pos])
      ensures sink.log == old(sink.log) + if Emits(fault) then [OutcomeFor(source.log[pos])] else []
      ensures BookedOnce(old(ledger.Contents()), source.log[pos], fault != PostRaises, ledger.Contents())
      ensures sink.log ==
        old(sink.log) + if fault == Smooth || fault == OutcomeUnacked then [Told(source.log[pos])] else []
    {
      DeliverIs(ledger.Contents(), source.log[pos]);
      hide BookedOnce, Told;
      w' := AttemptRuns(w0, w, name, pos, a, fault);
      hide At, Reaches, Deliver, Sound, AfterFailure, Reason;
      if fault == PostRaises {
        return true, w';
      }
      var ev := source.log[pos];
      var status, reason := ledger.PostPaymentCaptured(ev);
      if Emits(fault) {
        sink.log := sink.log + [MakeOutcome(ev, status, reason)];
      }
      raised := fault != Smooth;
    }

    /** Park the raw message, without checking that the write was delivered. */
    method ToDlq(pos: nat, parks: bool)
      requires pos < |source.log|
      modifies source`dlq
      ensures source.dlq == old(source.dlq) + if parks then [source.log[pos]] else []
    {
      if parks {
        source.dlq := source.dlq + [source.log[pos]];
      }
    }

    /** The retried unit of work: at most four attempts, stopping at the first that goes through. */
    method ProcessWithRetry(pos: nat, attempts: seq<PostFault>, ghost w0: World, ghost w: World)
      returns (raised: bool, ghost w': World)
      requires pos < |w0.events| && source.log == w0.events && Sound(ledger.Contents()) && |attempts| == MAX_RETRIES + 1
      requires Led(w0, w0, w, name, pos, Posting(0), ledger.Contents(), sink.log)
      modifies ledger, sink`log
      ensures Sound(ledger.Contents())
      ensures Led(w0, w0, w', name, pos, if raised then Parking else Confirming, ledger.Contents(), sink.log)
      ensures raised <==> !Succeeds(attempts, Smooth)
      ensures Made(old(ledger.Contents()), old(sink.log), source.log[pos], Tried(attempts, Smooth),
                   ledger.Contents(), sink.log)
    {
      ghost var ev := source.log[pos];
      ghost var books, log := ledger.Contents(), sink.log;
      hide Led, Deliver, Sound, Made, Emits, OutcomeFor, Succeeds, Tried;
      NothingTried(ev, books, log);
      assert attempts[..0] == [];
      w' := w;
      for n := 0 to MAX_RETRIES + 1
        invariant Sound(ledger.Contents())
        invariant Led(w0, w0, w', name, pos, if n <= MAX_RETRIES then Posting(n) else Parking, ledger.Contents(),
                      sink.log)
        invariant Smooth !in attempts[..n]
        invariant Made(books, log, ev, attempts[..n], ledger.Contents(), sink.log)
      {
        ghost var books1, log1 := ledger.Contents(), sink.log;
        TriesIs(attempts, Smooth, n);
        raised, w' := Process(pos, attempts[n], n, w0, w');
        AttemptAdds(books, log, ev, attempts, n, books1, log1, ledger.Contents(), sink.log);
        if !raised {
          return;
        }
      }
      raised := true;
      assert attempts[..|attempts|] == attempts;
      AllFail(attempts, Smooth);
    }

    /** The handler of an exception: dead-letter the message and commit past it. */
    method ParkAndMoveOn(pos: nat, parks: bool, last: CommitFault, ghost w0: World, ghost w: World)
      returns (alive: bool, ghost w': World)
      requires Reaches(w0, w) && PosterOf(w, name) == Busy(pos, Parking) && pos < |w.events|
      requires source.log == w.events && source.dlq == w.eventsDlq && source.committed == w.eventsCommitted
      modifies source`dlq, source`committed
      ensures Ended(w0, w, w', name, if alive then Idle(pos + 1) else Down, source.committed, source.dlq)
      ensures alive <==> last == Commits
      ensures source.committed == if last == CommitRaises then old(source.committed) else pos + 1
      ensures source.dlq == old(source.dlq) + if parks then [w.events[pos]] else []
    {
      w' := ParkingRuns(w0, w, name, pos, parks, last);
      hide Reaches;
      ToDlq(pos, parks);
      if last != CommitRaises {
        source.committed := pos + 1;
      }
      alive := last == Commits;
    }

    /** Handle the message at `pos`; if even the last commit raises, the exception ends the process. */
    method HandleMessage(pos: nat, script: Script<PostFault>, ghost w: World) returns (alive: bool, ghost w': World)
      requires Shows(w) && At(w, name, pos, Decoding) && |script.attempts| == MAX_RETRIES + 1
      modifies ledger, source`dlq, source`committed, sink`log
      ensures Reaches(w, w') && Shows(w') && PosterOf(w', name) == if alive then Idle(pos + 1) else Down
      ensures var ev, tried := w.events[pos], if script.decodes then Tried(script.attempts, Smooth) else [];
        Made(old(ledger.Contents()), old(sink.log), ev, tried, ledger.Contents(), sink.log)
      ensures BookedOnce(old(ledger.Contents()), w.events[pos],
                         script.decodes && SomeTried(script.attempts, Smooth, DELIVERS), ledger.Contents())
      ensures ToldOnly(old(sink.log), w.events[pos], script.decodes && SomeTried(script.attempts, Smooth, EMITS),
                       sink.log)
      ensures var through := script.decodes && Succeeds(script.attempts, Smooth);
        && (alive <==> (through && script.commit == Commits) || script.last == Commits)
        && source.committed ==
          (if (through && script.commit != CommitRaises) || script.last != CommitRaises then pos + 1
                                else old(source.committed))
        && source.dlq == old(source.dlq) +
             if Diverts(script, Smooth) then [w.events[pos]] else []
      ensures OutcomeFor(w.events[pos]) !in w.outcomes && w.events[pos] !in w.eventsDlq ==>
        && (OutcomeFor(w.events[pos]) in sink.log && w.events[pos] in source.dlq <==> AnswersAndParks(script))
        && (OutcomeFor(w.events[pos]) !in sink.log && w.events[pos] !in source.dlq <==> LeavesNothing(script))
    {
      hide InsertBlocked, Reaches, Deliver, Sound, Succeeds, Tried, Made, PostNext, OutcomeFor,
           AnswersAndParks, LeavesNothing, BookedOnce, ToldOnly, SomeTried;
      ghost var books := ledger.Contents();
      ReachesSelf(w);
      alive := false;
      if !script.decodes {
        w' := DecodeRuns(w, w, name, pos, false);
        NothingTried(w.events[pos], ledger.Contents(), sink.log);
      } else {
        w' := DecodeRuns(w, w, name, pos, true);
        var raised;
        raised, w' := ProcessWithRetry(pos, script.attempts, w, w');
        // The commit is inside the same try: if it raises, a message already answered is parked too.
        if !raised && script.commit != CommitRaises {
          w' := CommitRuns(w, w', name, pos, script.commit == CommitsThenRaises);
          source.committed := pos + 1;
          alive := script.commit == Commits;
        } else if !raised {
          w' := RefusedRuns(w, w', name, pos);
        }
      }
      if !alive {
        alive, w' := ParkAndMoveOn(pos, script.parks, script.last, w, w');
      }
      HandledMeans(books, w.outcomes, w.events[pos], script, ledger.Contents(), sink.log);
      if OutcomeFor(w.events[pos]) !in w.outcomes && w.events[pos] !in w.eventsDlq {
        AnsweredAndParkedExactlyWhen(books, w.outcomes, w.eventsDlq, w.events[pos], script, ledger.Contents(),
                                     sink.log, source.dlq);
      }
    }
  }

  // ----------------------------------------------------------------- saga consumer

  /** What goes wrong, if anything, in one attempt at compensating. */
  datatype SagaFault = NoFault | FailsBefore | FailsAfter

  /** The payments after some attempts: compensated once any of them got through its transaction. */
  function PaymentsFrom(payments: map<string, Payment>, o: Outcome, faults: seq<SagaFault>): map<string, Payment> {
    if faults == [] then payments
    else if faults[|faults| - 1] == FailsBefore then PaymentsFrom(payments, o, faults[..|faults| - 1])
    else PaymentsAfterOutcome(PaymentsFrom(payments, o, faults[..|faults| - 1]), o)
  }

  /** However many attempts got through, a rejected payment is voided once and nothing else changes. */
  lemma {:induction false} PaymentsFromOnce(payments: map<string, Payment>, o: Outcome, faults: seq<SagaFault>)
    ensures PaymentsFrom(payments, o, faults) ==
            if forall f :: f in faults ==> f == FailsBefore then payments else PaymentsAfterOutcome(payments, o)
  {
    if faults != [] {
      var init, last := faults[..|faults| - 1], faults[|faults| - 1];
      PaymentsFromOnce(payments, o, init);
      assert last in faults && forall f :: f in faults <==> f in init || f == last;
    }
  }

  /** Likewise for an outcome that is acted on and dead-lettered. */
  predicate VoidsAndParks(script: Script<SagaFault>) {
    && script.decodes && script.parks
    && if NoFault in script.attempts then script.commit != Commits else FailsAfter in script.attempts
  }

  /** Neither, exactly: the dead-letter write was lost, and no attempt got through its transaction. */
  predicate LeavesUnsettled(script: Script<SagaFault>) {
    !script.parks && !(script.decodes && (NoFault in script.attempts || FailsAfter in script.attempts))
  }

  lemma VoidedAndParkedExactlyWhen(payments: map<string, Payment>, dlq: seq<Outcome>, o: Outcome,
                                   script: Script<SagaFault>, payments': map<string, Payment>, dlq': seq<Outcome>)
    requires PaymentsAfterOutcome(payments, o) != payments && o !in dlq
    requires payments' == PaymentsFrom(payments, o, if script.decodes then Tried(script.attempts, NoFault) else [])
    requires dlq' == dlq + if Diverts(script, NoFault) then [o] else []
    ensures payments' != payments && o in dlq' <==> VoidsAndParks(script)
    ensures payments' == payments && o !in dlq' <==> LeavesUnsettled(script)
  {
    var tried := if script.decodes then Tried(script.attempts, NoFault) else [];
    PaymentsFromOnce(payments, o, tried);
    TriedIs(script.attempts, NoFault);
    hide PaymentsAfterOutcome, Tried, PaymentsFrom;
    assert payments' != payments <==> exists f :: f in tried && f != FailsBefore;
    assert o in dlq' <==> Diverts(script, NoFault);
  }

  /** A rejected payment is VOIDED if an attempt gets that far, and nothing else changes. */
  ghost predicate VoidsOnly(payments: map<string, Payment>, o: Outcome, acts: bool, payments': map<string, Payment>) {
    && payments'.Keys == payments.Keys
    && forall p :: p in payments ==>
         payments'[p] == if acts && o.status == Rejected && p == o.paymentId then payments[p].(status := Voided)
                         else payments[p]
  }

  lemma VoidedMeans(payments: map<string, Payment>, o: Outcome, script: Script<SagaFault>,
                    payments': map<string, Payment>)
    requires payments' == PaymentsFrom(payments, o, if script.decodes then Tried(script.attempts, NoFault) else [])
    ensures VoidsOnly(payments, o, script.decodes && SomeTried(script.attempts, NoFault, {NoFault, FailsAfter}),
                      payments')
  {
    var tried := if script.decodes then Tried(script.attempts, NoFault) else [];
    PaymentsFromOnce(payments, o, tried);
    TriedAre(script.attempts, NoFault, {NoFault, FailsAfter});
    hide Tried, PaymentsFrom, SomeTried;
    assert (exists f :: f in tried && f != FailsBefore) <==> exists f :: f in tried && f in {NoFault, FailsAfter};
  }

  lemma NothingVoided(payments: map<string, Payment>, o: Outcome)
    ensures PaymentsFrom(payments, o, []) == payments
  {
  }

  lemma VoidingAttempt(payments: map<string, Payment>, o: Outcome, faults: seq<SagaFault>, n: nat)
    requires n < |faults|
    ensures PaymentsFrom(payments, o, faults[..0]) == payments
    ensures PaymentsFrom(payments, o, faults[..n + 1]) ==
            if faults[n] == FailsBefore then PaymentsFrom(payments, o, faults[..n])
            else PaymentsAfterOutcome(PaymentsFrom(payments, o, faults[..n]), o)
  {
    assert faults[..n + 1][..n] == faults[..n];
  }

  /** From `w`, saga consumer `s` alone has come to `w'`. */
  ghost predicate Brought(w: World, w': World, s: string, now: Worker<Compensator>, payments: map<string, Payment>,
                          committed: nat, dlq: seq<Outcome>) {
    && Reaches(w, w') && CompensatorOf(w', s) == now
    && w'.payments == payments && w'.outcomesCommitted == committed && w'.outcomesDlq == dlq
    && w'.outcomes == w.outcomes && w'.outbox == w.outbox
  }

  /** Take one sub-step of handling the outcome at `pos`. */
  lemma SagaTakes(w0: World, w: World, s: string, pos: nat, phase: Compensator, h: SagaAction) returns (w': World)
    requires Reaches(w0, w) && CompensatorOf(w, s) == Busy(pos, phase) && pos < |w.outcomes| && SagaEnabled(phase, h)
    requires w.outcomes == w0.outcomes && w.outbox == w0.outbox
    ensures var o := w.outcomes[pos];
      Brought(w0, w', s, SagaNext(pos, phase, h),
              if h.Compensate? then PaymentsAfterOutcome(w.payments, o) else w.payments,
              if h.Acknowledge? || h.AcknowledgeDiverted? then pos + 1 else w.outcomesCommitted,
              if h == Divert(true) then w.outcomesDlq + [o] else w.outcomesDlq)
  {
    CompensatorDoes(w, s, h);
    w' := Next(w, SagaMachine.SagaStep(s, Handle(h)));
    hide Enabled, Next;
    ReachesStep(w0, w, SagaMachine.SagaStep(s, Handle(h)));
  }

  lemma SagaDies(w0: World, w: World, s: string) returns (w': World)
    requires Reaches(w0, w) && w.outcomes == w0.outcomes && w.outbox == w0.outbox
    ensures Brought(w0, w', s, Down, w.payments, w.outcomesCommitted, w.outcomesDlq)
  {
    var a := SagaMachine.SagaStep(s, Crash);
    assert Enabled(w, a) && Next(w, a) == w.(compensators := w.compensators[s := Down]);
    w' := Next(w, a);
    hide Enabled, Next;
    ReachesStep(w0, w, a);
  }

  /** Park the outcome and move past it; an exception of that last commit ends the process, committed or not. */
  lemma DivertingRuns(w0: World, w: World, s: string, pos: nat, parks: bool, last: CommitFault) returns (w': World)
    requires pos < |w.outcomes|
    requires Brought(w0, w, s, Busy(pos, Diverting), w.payments, w.outcomesCommitted, w.outcomesDlq)
    ensures Brought(w0, w', s, if last == Commits then Idle(pos + 1) else Down, w.payments,
                    if last == CommitRaises then w.outcomesCommitted else pos + 1,
                    w.outcomesDlq + if parks then [w.outcomes[pos]] else [])
  {
    hide Reaches;
    w' := SagaTakes(w0, w, s, pos, Diverting, Divert(parks));
    if last != CommitRaises {
      w' := SagaTakes(w0, w', s, pos, Diverted, AcknowledgeDiverted);
    }
    if last != Commits {
      w' := SagaDies(w0, w', s);
    }
  }

  /** One whole attempt, whatever goes wrong in it. */
  lemma CompensationRuns(w0: World, w: World, s: string, pos: nat, a: nat, fault: SagaFault) returns (w': World)
    requires pos < |w.outcomes|
    requires Brought(w0, w, s, Busy(pos, Compensating(a)), w.payments, w.outcomesCommitted, w.outcomesDlq)
    ensures Brought(w0, w', s, Busy(pos, if fault == NoFault then Acknowledging else AfterStumble(a)),
                    if fault == FailsBefore then w.payments else PaymentsAfterOutcome(w.payments, w.outcomes[pos]),
                    w.outcomesCommitted, w.outcomesDlq)
  {
    hide Reaches, PaymentsAfterOutcome;
    w' := SagaTakes(w0, w, s, pos, Compensating(a),
                    if fault == FailsBefore then Stumble else Compensate(fault == FailsAfter));
  }

  class SagaConsumer {
    const name: string
    const db: PaymentService
    const source: Topic<Outcome>

    constructor (name: string, db: PaymentService, source: Topic<Outcome>)
      ensures this.name == name && this.db == db && this.source == source
    {
      this.name, this.db, this.source := name, db, source;
    }

    ghost predicate Shows(w: World)
      reads db, source
    {
      && db.payments == w.payments && db.outbox == w.outbox
      && source.log == w.outcomes && source.dlq == w.outcomesDlq && source.committed == w.outcomesCommitted
    }

    method CompensateIfRejected(o: Outcome)
      modifies db`payments
      ensures db.payments == PaymentsAfterOutcome(old(db.payments), o)
      ensures VoidsOnly(old(db.payments), o, true, db.payments)
    {
      if o.status == Rejected {
        var voided := db.CompensatePayment(o.paymentId);
      }
    }

    method ToDlq(pos: nat, parks: bool)
      requires pos < |source.log|
      modifies source`dlq
      ensures source.dlq == old(source.dlq) + if parks then [source.log[pos]] else []
    {
      if parks {
        source.dlq := source.dlq + [source.log[pos]];
      }
    }

    /** The retried unit of work: at most four attempts, stopping at the first that goes through. */
    method CompensateWithRetry(pos: nat, attempts: seq<SagaFault>, ghost w0: World, ghost w: World)
      returns (raised: bool, ghost w': World)
      requires pos < |w0.outcomes| && source.log == w0.outcomes && |attempts| == MAX_RETRIES + 1
      requires Brought(w0, w, name, Busy(pos, Compensating(0)), db.payments, source.committed, source.dlq)
      modifies db`payments
      ensures Brought(w0, w', name, Busy(pos, if raised then Diverting else Acknowledging), db.payments,
                      source.committed, source.dlq)
      ensures raised <==> !Succeeds(attempts, NoFault)
      ensures db.payments == PaymentsFrom(old(db.payments), source.log[pos], Tried(attempts, NoFault))
    {
      w' := w;
      VoidingAttempt(db.payments, source.log[pos], attempts, 0);
      hide PaymentsFrom, PaymentsAfterOutcome, Succeeds, Tried;
      for n := 0 to MAX_RETRIES + 1
        invariant Brought(w0, w', name, Busy(pos, if n <= MAX_RETRIES then Compensating(n) else Diverting),
                          db.payments, source.committed, source.dlq)
        invariant NoFault !in attempts[..n]
        invariant db.payments == PaymentsFrom(old(db.payments), source.log[pos], attempts[..n])
      {
        VoidingAttempt(old(db.payments), source.log[pos], attempts, n);
        TriesIs(attempts, NoFault, n);
        w' := CompensationRuns(w0, w', name, pos, n, attempts[n]);
        if attempts[n] != FailsBefore {
          CompensateIfRejected(source.log[pos]);
        }
        if attempts[n] == NoFault {
          return false, w';
        }
      }
      raised := true;
      assert attempts[..|attempts|] == attempts;
      AllFail(attempts, NoFault);
    }

    /** The handler of an exception: dead-letter the outcome and commit past it. */
    method DivertAndMoveOn(pos: nat, parks: bool, last: CommitFault, ghost w0: World, ghost w: World)
      returns (alive: bool, ghost w': World)
      requires pos < |w.outcomes| && source.log == w.outcomes
      requires Brought(w0, w, name, Busy(pos, Diverting), w.payments, source.committed, source.dlq)
      modifies source`dlq, source`committed
      ensures Brought(w0, w', name, if alive then Idle(pos + 1) else Down, w.payments, source.committed, source.dlq)
      ensures alive <==> last == Commits
      ensures source.committed == if last == CommitRaises then old(source.committed) else pos + 1
      ensures source.dlq == old(source.dlq) + if parks then [w.outcomes[pos]] else []
    {
      w' := DivertingRuns(w0, w, name, pos, parks, last);
      hide Reaches;
      ToDlq(pos, parks);
      if last != CommitRaises {
        source.committed := pos + 1;
      }
      alive := last == Commits;
    }

    /** Handle the outcome at `pos`; if even the last commit raises, the exception ends the process. */
    method HandleMessage(pos: nat, script: Script<SagaFault>, ghost w: World) returns (alive: bool, ghost w': World)
      requires Shows(w) && CompensatorOf(w, name) == Busy(pos, Reading) && pos < |w.outcomes|
      requires |script.attempts| == MAX_RETRIES + 1
      modifies db`payments, source`dlq, source`committed
      ensures Reaches(w, w') && Shows(w') && CompensatorOf(w', name) == if alive then Idle(pos + 1) else Down
      ensures var tried := if script.decodes then Tried(script.attempts, NoFault) else [];
        db.payments == PaymentsFrom(old(db.payments), w.outcomes[pos], tried)
      ensures VoidsOnly(old(db.payments), w.outcomes[pos],
                        script.decodes && SomeTried(script.attempts, NoFault, {NoFault, FailsAfter}), db.payments)
      ensures var through := script.decodes && Succeeds(script.attempts, NoFault);
        && (alive <==> (through && script.commit == Commits) || script.last == Commits)
        && source.committed ==
          (if (through && script.commit != CommitRaises) || script.last != CommitRaises then pos + 1
                                else old(source.committed))
        && source.dlq == old(source.dlq) +
             if Diverts(script, NoFault) then [w.outcomes[pos]] else []
      ensures w.outcomes[pos] !in w.outcomesDlq && PaymentsAfterOutcome(w.payments, w.outcomes[pos]) != w.payments ==>
        && (db.payments != w.payments && w.outcomes[pos] in source.dlq <==> VoidsAndParks(script))
        && (db.payments == w.payments && w.outcomes[pos] !in source.dlq <==> LeavesUnsettled(script))
    {
      hide Reaches, Succeeds, Tried, PaymentsAfterOutcome, PaymentsFrom, VoidsAndParks, LeavesUnsettled,
           VoidsOnly, SomeTried;
      ReachesSelf(w);
      alive := false;
      NothingVoided(w.payments, w.outcomes[pos]);
      w' := SagaTakes(w, w, name, pos, Reading, Interpret(script.decodes));
      if script.decodes {
        var raised;
        raised, w' := CompensateWithRetry(pos, script.attempts, w, w');
        // The commit is inside the same try: if it raises, an outcome already acted on is parked too.
        if !raised && script.commit != CommitRaises {
          w' := SagaTakes(w, w', name, pos, Acknowledging, Acknowledge(script.commit == CommitsThenRaises));
          source.committed := pos + 1;
          alive := script.commit == Commits;
        } else if !raised {
          w' := SagaTakes(w, w', name, pos, Acknowledging, AcknowledgeRefused);
        }
      }
      if !alive {
        alive, w' := DivertAndMoveOn(pos, script.parks, script.last, w, w');
      }
      VoidedMeans(w.payments, w.outcomes[pos], script, db.payments);
      if w.outcomes[pos] !in w.outcomesDlq && PaymentsAfterOutcome(w.payments, w.outcomes[pos]) != w.payments {
        VoidedAndParkedExactlyWhen(w.payments, w.outcomesDlq, w.outcomes[pos], script, db.payments, source.dlq);
      }
    }
  }
}
