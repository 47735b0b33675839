/** The circuit breaker of the gateway and of the LLM gateway: the same machine in two copies. */
module Breakers {
  import opened Prelude

  datatype State = Closed | Open | HalfOpen

  datatype Policy = Policy(threshold: int, cooldown: real)

  /** A breaker's fields. */
  datatype Reading = Reading(failures: nat, state: State, openedAt: real)

  const Fresh := Reading(0, Closed, 0.0)

  predicate LetsThrough(b: Reading, now: real, p: Policy) {
    b.state != Open || now - b.openedAt >= p.cooldown
  }

  function AfterAllow(b: Reading, now: real, p: Policy): Reading {
    if b.state == Open && now - b.openedAt >= p.cooldown then b.(state := HalfOpen) else b
  }

  function AfterSuccess(b: Reading): Reading {
    b.(failures := 0, state := Closed)
  }

  function AfterFailure(b: Reading, now: real, p: Policy): Reading {
    if b.state == HalfOpen || b.failures + 1 >= p.threshold then Reading(b.failures + 1, Open, now)
    else b.(failures := b.failures + 1)
  }

  // -------------------------------------------------------------- any interleaving

  datatype Operation = Allow(now: real) | Success | Failure(now: real)

  function Apply(b: Reading, op: Operation, p: Policy): Reading {
    match op
    case Allow(now) => AfterAllow(b, now, p)
    case Success => AfterSuccess(b)
    case Failure(now) => AfterFailure(b, now, p)
  }

  function ApplyAll(b: Reading, ops: seq<Operation>, p: Policy): Reading {
    if ops == [] then b else Apply(ApplyAll(b, ops[..|ops| - 1], p), ops[|ops| - 1], p)
  }

  /** Failures recorded since the last success. */
  function Streak(ops: seq<Operation>): nat {
    if ops == [] || ops[|ops| - 1].Success? then 0
    else Streak(ops[..|ops| - 1]) + if ops[|ops| - 1].Failure? then 1 else 0
  }

  /** Whatever callers do and in whatever order, the breaker is closed exactly while the current streak is short. */
  lemma {:induction false} ClosedIffStreakShort(ops: seq<Operation>, p: Policy)
    requires p.threshold >= 1
    ensures var b := ApplyAll(Fresh, ops, p);
      && b.failures == Streak(ops)
      && (b.state == Closed <==> Streak(ops) < p.threshold)
  {
    if ops != [] {
      ClosedIffStreakShort(ops[..|ops| - 1], p);
    }
  }

  // -------------------------------------------------------------- one caller at a time

  /** What a call that went through comes to: an answer, a recorded fault, or an exception that records nothing. */
  datatype Reply = Good | Bad | Escapes

  datatype Attempt = Attempt(start: real, end: real, reply: Reply)

  /** One attempt after another, on a clock that never goes back. */
  ghost predicate Sequential(attempts: seq<Attempt>) {
    && (forall i :: 0 <= i < |attempts| ==> attempts[i].start <= attempts[i].end)
    && (forall i, j :: 0 <= i < j < |attempts| ==> attempts[i].end <= attempts[j].start)
  }

  function AfterAttempt(b: Reading, a: Attempt, p: Policy): Reading {
    if !LetsThrough(b, a.start, p) then AfterAllow(b, a.start, p)
    else
      match a.reply
      case Good => AfterSuccess(AfterAllow(b, a.start, p))
      case Bad => AfterFailure(AfterAllow(b, a.start, p), a.end, p)
      case Escapes => AfterAllow(b, a.start, p)
  }

  /** The calls that reached the backend and failed. */
  function FailedCalls(b: Reading, attempts: seq<Attempt>, p: Policy): seq<Attempt>
    decreases |attempts|
  {
    if attempts == [] then []
    else
      (if LetsThrough(b, attempts[0].start, p) && attempts[0].reply == Bad then [attempts[0]] else []) +
      FailedCalls(AfterAttempt(b, attempts[0], p), attempts[1..], p)
  }

  ghost predicate NoSuccess(attempts: seq<Attempt>) {
    forall i :: 0 <= i < |attempts| ==> attempts[i].reply != Good
  }

  /** A reading some history can leave: open ones tripped in the past, half-open ones have cooled down. */
  ghost predicate Sane(b: Reading, now: real, p: Policy) {
    && p.threshold >= 1
    && (b.state == Closed <==> b.failures < p.threshold)
    && (b.state == HalfOpen ==> b.openedAt + p.cooldown <= now)
  }

  function TimeOf(op: Operation): Option<real> {
    match op
    case Allow(now) => Some(now)
    case Success => None
    case Failure(now) => Some(now)
  }

  /** All the operations happened by `now`. */
  ghost predicate HappenedBy(ops: seq<Operation>, now: real) {
    forall i :: 0 <= i < |ops| ==> TimeOf(ops[i]).Some? ==> TimeOf(ops[i]).value <= now
  }

  /** Every history leaves a sane reading, whoever the callers were and however they overlapped. */
  lemma {:induction false} HistoriesAreSane(ops: seq<Operation>, now: real, p: Policy)
    requires p.threshold >= 1 && HappenedBy(ops, now)
    ensures Sane(ApplyAll(Fresh, ops, p), now, p)
  {
    if ops != [] {
      var init, last := ops[..|ops| - 1], ops[|ops| - 1];
      assert TimeOf(last).Some? ==> TimeOf(last).value <= now;
      HistoriesAreSane(init, now, p);
    }
  }

  lemma AttemptKeepsSane(b: Reading, a: Attempt, p: Policy)
    requires Sane(b, a.start, p) && a.start <= a.end
    ensures Sane(AfterAttempt(b, a, p), a.end, p)
  {
  }

  /** From the threshold on, each failed call starts at least a cooldown after the one before ended. */
  lemma {:induction false} FailuresAreSpaced(b: Reading, attempts: seq<Attempt>, p: Policy, i: nat)
    requires Sequential(attempts) && NoSuccess(attempts) && p.threshold >= 1
    requires attempts != [] ==> Sane(b, attempts[0].start, p)
    requires i < |FailedCalls(b, attempts, p)| && b.failures + i >= p.threshold
    ensures var calls := FailedCalls(b, attempts, p);
      calls[i].start >= (if i == 0 then b.openedAt else calls[i - 1].end) + p.cooldown
    decreases |attempts|
  {
    var a, rest := attempts[0], attempts[1..];
    var b' := AfterAttempt(b, a, p);
    AttemptKeepsSane(b, a, p);
    if LetsThrough(b, a.start, p) && a.reply == Bad {
      if i > 0 {
        FailuresAreSpaced(b', rest, p, i - 1);
      }
    } else {
      FailuresAreSpaced(b', rest, p, i);
    }
  }

  /** Failed calls are some of the attempts, in order. */
  lemma {:induction false} FailedCallsInOrder(b: Reading, attempts: seq<Attempt>, p: Policy)
    requires Sequential(attempts)
    ensures Sequential(FailedCalls(b, attempts, p))
    ensures forall c :: c in FailedCalls(b, attempts, p) ==> c in attempts
    decreases |attempts|
  {
    if attempts != [] {
      FailedCallsInOrder(AfterAttempt(b, attempts[0], p), attempts[1..], p);
      var later := FailedCalls(AfterAttempt(b, attempts[0], p), attempts[1..], p);
      forall c | c in later ensures attempts[0].end <= c.start {
        var j :| 0 <= j < |attempts[1..]| && attempts[1..][j] == c;
        assert attempts[j + 1] == c;
      }
    }
  }

  function Times(k: nat, duration: real): real {
    k as real * duration
  }

  lemma TimesNext(k: nat, duration: real)
    ensures Times(k + 1, duration) == Times(k, duration) + duration && Times(0, duration) == 0.0
  {
  }

  /**
   Spacing over whole traces: from any sane reading, if no attempt succeeds, then between the end of
   the failed call that reaches the threshold and the start of the k-th one after it lie at least
   k cooldowns.
   */
  lemma {:induction false} BreakerSpacing(b: Reading, attempts: seq<Attempt>, p: Policy, k: nat)
    requires Sequential(attempts) && NoSuccess(attempts) && p.threshold >= 1 && p.cooldown >= 0.0
    requires attempts != [] ==> Sane(b, attempts[0].start, p)
    requires 0 < k && p.threshold - 1 + k < |FailedCalls(b, attempts, p)|
    ensures var calls := FailedCalls(b, attempts, p);
      calls[p.threshold - 1 + k].start >= calls[p.threshold - 1].end + Times(k, p.cooldown)
    decreases k
  {
    hide FailedCalls, Times, Sane;
    var calls := FailedCalls(b, attempts, p);
    FailuresAreSpaced(b, attempts, p, p.threshold - 1 + k);
    FailedCallsInOrder(b, attempts, p);
    TimesNext(k - 1, p.cooldown);
    if k > 1 {
      BreakerSpacing(b, attempts, p, k - 1);
      assert calls[p.threshold - 1 + k - 1].start <= calls[p.threshold - 1 + k - 1].end;
    }
  }

  /** A dead backend gets at most threshold + W / cooldown calls in a window of length W. */
  lemma WindowBound(b: Reading, attempts: seq<Attempt>, p: Policy)
    requires Sequential(attempts) && NoSuccess(attempts) && p.threshold >= 1 && p.cooldown >= 0.0
    requires attempts != [] ==> Sane(b, attempts[0].start, p)
    ensures var calls := FailedCalls(b, attempts, p);
      |calls| > p.threshold ==>
        Times(|calls| - p.threshold, p.cooldown) <= calls[|calls| - 1].start - calls[0].start
  {
    hide FailedCalls, Times, Sane;
    var calls := FailedCalls(b, attempts, p);
    if |calls| > p.threshold {
      BreakerSpacing(b, attempts, p, |calls| - p.threshold);
      FailedCallsInOrder(b, attempts, p);
      assert p.threshold > 1 ==> calls[0].end <= calls[p.threshold - 1].start;
      assert calls[p.threshold - 1].start <= calls[p.threshold - 1].end;
      assert calls[0].start <= calls[0].end;
    }
  }

  /** And that from any point of any history on, overlapping callers before it included. */
  lemma WindowBoundAfter(ops: seq<Operation>, attempts: seq<Attempt>, p: Policy)
    requires Sequential(attempts) && NoSuccess(attempts) && p.threshold >= 1 && p.cooldown >= 0.0
    requires attempts != [] ==> HappenedBy(ops, attempts[0].start)
    ensures var calls := FailedCalls(ApplyAll(Fresh, ops, p), attempts, p);
      |calls| > p.threshold ==>
        Times(|calls| - p.threshold, p.cooldown) <= calls[|calls| - 1].start - calls[0].start
  {
    hide Sane, FailedCalls, Times;
    if attempts != [] {
      HistoriesAreSane(ops, attempts[0].start, p);
    }
    WindowBound(ApplyAll(Fresh, ops, p), attempts, p);
  }

  /** While it cools down, an open breaker turns every attempt away and does not change. */
  lemma {:induction false} OpenTurnsAway(b: Reading, attempts: seq<Attempt>, p: Policy, i: nat)
    requires b.state == Open && i < |attempts|
    requires forall j :: 0 <= j < |attempts| ==> attempts[j].start < b.openedAt + p.cooldown
    ensures !LetsThrough(b, attempts[i].start, p) && FailedCalls(b, attempts, p) == []
    decreases |attempts|
  {
    assert AfterAttempt(b, attempts[0], p) == b;
    if |attempts| > 1 {
      OpenTurnsAway(b, attempts[1..], p, if i == 0 then 0 else i - 1);
    } else {
      assert attempts[1..] == [];
    }
  }

  // ---------------------------------------------------------------- overlapping callers

  function Allows(times: seq<real>): seq<Operation> {
    seq(|times|, i requires 0 <= i < |times| => Allow(times[i]))
  }

  /**
   Callers must take turns for this: once an open breaker has cooled down, it lets every caller
   through until one of them reports, and a success that comes in late closes it.
   */
  lemma {:induction false} OverlappingProbes(b: Reading, times: seq<real>, late: real, p: Policy)
    requires b.state == Open && p.threshold >= 1
    requires forall i :: 0 <= i < |times| ==> times[i] - b.openedAt >= p.cooldown
    ensures var cooled := ApplyAll(b, Allows(times), p);
      && cooled == (if times == [] then b else b.(state := HalfOpen))
      && ApplyAll(cooled, [Failure(late), Success], p).state == Closed
    ensures forall i :: 0 <= i < |times| ==> LetsThrough(ApplyAll(b, Allows(times[..i]), p), times[i], p)
    decreases |times|
  {
    if times != [] {
      var last := |times| - 1;
      OverlappingProbes(b, times[..last], late, p);
      assert Allows(times)[..last] == Allows(times[..last]);
      forall i | 0 <= i < |times| ensures LetsThrough(ApplyAll(b, Allows(times[..i]), p), times[i], p) {
        assert i < last ==> times[..last][..i] == times[..i] && times[..last][i] == times[i];
      }
    }
    var end := [Failure(late), Success];
    assert end[..1] == [Failure(late)] && [Failure(late)][..0] == [];
  }

  /** What happens at a breaker, in order: a caller asks, or a call that was let through ends. */
  datatype Moment = Asks(at: real) | Ends(call: Attempt)

  function When(e: Moment): real {
    match e
    case Asks(at) => at
    case Ends(call) => call.end
  }

  function AfterMoment(b: Reading, e: Moment, p: Policy): Reading {
    match e
    case Asks(at) => AfterAllow(b, at, p)
    case Ends(call) =>
      match call.reply
      case Good => AfterSuccess(b)
      case Bad => AfterFailure(b, call.end, p)
      case Escapes => b
  }

  /** The starts of the calls in flight. */
  function FlyingAfter(flying: multiset<real>, b: Reading, e: Moment, p: Policy): multiset<real> {
    match e
    case Asks(at) => if LetsThrough(b, at, p) then flying + multiset{at} else flying
    case Ends(call) => flying - multiset{call.start}
  }

  /**
   A history on a clock that never goes back, with at most `m` calls in flight, in which only calls in
   flight end, and end without a report only if `silent`.
   */
  ghost predicate Flows(b: Reading, flying: multiset<real>, now: real, h: seq<Moment>, p: Policy, m: nat, silent: bool)
    decreases |h|
  {
    && |flying| <= m
    && (h != [] ==>
        && now <= When(h[0])
        && (h[0].Ends? ==> h[0].call.start in flying && (h[0].call.reply == Escapes ==> silent))
        && Flows(AfterMoment(b, h[0], p), FlyingAfter(flying, b, h[0], p), When(h[0]), h[1..], p, m, silent))
  }

  /** Such a history from any reading that a past of any kind can leave, with no call in flight. */
  ghost predicate Traffic(b: Reading, now: real, h: seq<Moment>, p: Policy, m: nat, silent: bool) {
    Sane(b, now, p) && Flows(b, multiset{}, now, h, p, m, silent)
  }

  /**
   While the breaker is not closed, at most one caller passes between two reports; `probed` says that
   one has since the last.
   */
  predicate OneProbe(b: Reading, probed: bool, h: seq<Moment>, p: Policy)
    decreases |h|
  {
    h != [] ==>
      match h[0]
      case Asks(at) =>
        && (LetsThrough(b, at, p) && b.state != Closed ==> !probed)
        && OneProbe(AfterMoment(b, h[0], p), probed || LetsThrough(b, at, p), h[1..], p)
      case Ends(call) =>
        OneProbe(AfterMoment(b, h[0], p), probed && call.reply == Escapes, h[1..], p)
  }

  /** A caller alone, whose calls all report, is the one probe. */
  lemma {:induction false} LoneCallersProbe(b: Reading, flying: multiset<real>, now: real, h: seq<Moment>, p: Policy,
                                            m: nat, silent: bool, probed: bool)
    requires Flows(b, flying, now, h, p, m, silent) && (m == 0 || (m == 1 && !silent))
    requires probed ==> flying != multiset{}
    ensures OneProbe(b, probed, h, p)
    decreases |h|
  {
    if h != [] {
      var b', flying' := AfterMoment(b, h[0], p), FlyingAfter(flying, b, h[0], p);
      var passes := h[0].Asks? && LetsThrough(b, h[0].at, p);
      if passes {
        assert |flying'| == |flying| + 1 <= m;
      }
      var probed' := if h[0].Asks? then probed || passes else probed && h[0].call.reply == Escapes;
      LoneCallersProbe(b', flying', When(h[0]), h[1..], p, m, silent, probed');
    }
  }

  /** `k` calls in turn that all fail at once. */
  function Failing(k: nat, at: real): seq<Moment> {
    if k == 0 then [] else [Asks(at), Ends(Attempt(at, at, Bad))] + Failing(k - 1, at)
  }

  /** The calls that failed, in the order of their reports. */
  function FailedIn(h: seq<Moment>): (calls: seq<Attempt>)
    ensures forall c :: c in calls ==> Ends(c) in h
  {
    if h == [] then []
    else (if h[0].Ends? && h[0].call.reply == Bad then [h[0].call] else []) + FailedIn(h[1..])
  }

  ghost predicate NoneGood(h: seq<Moment>) {
    forall i :: 0 <= i < |h| ==> h[i].Ends? ==> h[i].call.reply != Good
  }

  lemma AsksFirst(b: Reading, flying: multiset<real>, now: real, probed: bool, at: real, rest: seq<Moment>, p: Policy,
                  m: nat, silent: bool)
    ensures var b', flying' := AfterAllow(b, at, p), FlyingAfter(flying, b, Asks(at), p);
      Flows(b, flying, now, [Asks(at)] + rest, p, m, silent) <==>
      |flying| <= m && now <= at && Flows(b', flying', at, rest, p, m, silent)
    ensures FailedIn([Asks(at)] + rest) == FailedIn(rest)
    ensures OneProbe(b, probed, [Asks(at)] + rest, p) <==>
      && (LetsThrough(b, at, p) && b.state != Closed ==> !probed)
      && OneProbe(AfterAllow(b, at, p), probed || LetsThrough(b, at, p), rest, p)
  {
    assert ([Asks(at)] + rest)[1..] == rest;
  }

  lemma EndsFirst(b: Reading, flying: multiset<real>, now: real, probed: bool, call: Attempt, rest: seq<Moment>,
                  p: Policy, m: nat, silent: bool)
    ensures var b', flying' := AfterMoment(b, Ends(call), p), flying - multiset{call.start};
      Flows(b, flying, now, [Ends(call)] + rest, p, m, silent) <==>
      && |flying| <= m && now <= call.end && call.start in flying && (call.reply == Escapes ==> silent)
      && Flows(b', flying', call.end, rest, p, m, silent)
    ensures FailedIn([Ends(call)] + rest) == (if call.reply == Bad then [call] else []) + FailedIn(rest)
    ensures OneProbe(b, probed, [Ends(call)] + rest, p) <==>
      OneProbe(AfterMoment(b, Ends(call), p), probed && call.reply == Escapes, rest, p)
  {
    assert ([Ends(call)] + rest)[1..] == rest;
  }

  /** All these calls started in the window. */
  ghost predicate Within(calls: seq<Attempt>, from: real, to: real) {
    forall c :: c in calls ==> from <= c.start <= to
  }

  /** At most threshold + W / cooldown of the calls failed, for any window of length W that holds them. */
  ghost predicate Bounded(calls: seq<Attempt>, p: Policy) {
    |calls| > p.threshold ==>
      forall from, to :: Within(calls, from, to) ==> Times(|calls| - p.threshold, p.cooldown) <= to - from
  }

  /** One call that fails at once, with nothing else in flight. */
  lemma FailsFirst(b: Reading, now: real, at: real, rest: seq<Moment>, p: Policy, m: nat, silent: bool)
    requires b.state == Closed && m >= 1 && now <= at
    ensures var b', h := AfterFailure(b, at, p), Failing(1, at) + rest;
      && (Flows(b', multiset{}, at, rest, p, m, silent) ==> Flows(b, multiset{}, now, h, p, m, silent))
      && (OneProbe(b', false, rest, p) <==> OneProbe(b, false, h, p))
      && FailedIn(h) == [Attempt(at, at, Bad)] + FailedIn(rest)
  {
    hide Flows, OneProbe, FailedIn;
    var call := Attempt(at, at, Bad);
    AsksFirst(b, multiset{}, now, false, at, [Ends(call)] + rest, p, m, silent);
    EndsFirst(b, multiset{at}, at, true, call, rest, p, m, silent);
    assert Failing(0, at) == [] && Failing(1, at) + rest == [Asks(at)] + ([Ends(call)] + rest);
    assert multiset{} + multiset{at} == multiset{at} && multiset{at} - multiset{at} == multiset{};
  }

  /** From a closed breaker, as many failures as are missing trip it. */
  lemma {:induction false} FailingTrips(b: Reading, k: nat, now: real, at: real, rest: seq<Moment>, p: Policy, m: nat,
                                        silent: bool)
    requires k > 0 && b.state == Closed && b.failures + k == p.threshold && m >= 1 && now <= at
    ensures var tripped, h := Reading(p.threshold, Open, at), Failing(k, at) + rest;
      && (Flows(tripped, multiset{}, at, rest, p, m, silent) ==> Flows(b, multiset{}, now, h, p, m, silent))
      && (OneProbe(tripped, false, rest, p) <==> OneProbe(b, false, h, p))
      && FailedIn(h) == seq(k, i => Attempt(at, at, Bad)) + FailedIn(rest)
    decreases k
  {
    hide Flows, OneProbe, FailedIn;
    var later := Failing(k - 1, at) + rest;
    FailsFirst(b, now, at, later, p, m, silent);
    assert Failing(0, at) == [];
    assert Failing(k, at) + rest == Failing(1, at) + later;
    if k == 1 {
      assert later == rest;
    } else {
      FailingTrips(AfterFailure(b, at, p), k - 1, at, at, rest, p, m, silent);
      assert seq(k, i => Attempt(at, at, Bad)) == [Attempt(at, at, Bad)] + seq(k - 1, i => Attempt(at, at, Bad));
    }
  }

  lemma {:induction false} FailingIsBad(k: nat, at: real, rest: seq<Moment>)
    requires NoneGood(rest)
    ensures NoneGood(Failing(k, at) + rest)
  {
    if k == 0 {
      assert Failing(0, at) + rest == rest;
    } else {
      FailingIsBad(k - 1, at, rest);
      assert Failing(k, at) + rest == [Asks(at), Ends(Attempt(at, at, Bad))] + (Failing(k - 1, at) + rest);
    }
  }

  lemma NothingHappens(b: Reading, now: real, probed: bool, p: Policy, m: nat, silent: bool)
    ensures Flows(b, multiset{}, now, [], p, m, silent) && OneProbe(b, probed, [], p) && FailedIn([]) == []
  {
  }

  /** Two callers at a breaker that has just cooled down, both of whose calls fail. */
  function TwoProbes(at: real): seq<Moment> {
    var call := Attempt(at, at, Bad);
    [Asks(at)] + ([Asks(at)] + ([Ends(call)] + ([Ends(call)] + [])))
  }

  lemma TwoProbesPass(b: Reading, at: real, p: Policy, m: nat, silent: bool)
    requires b.state == Open && at - b.openedAt >= p.cooldown && m >= 2 && b.openedAt <= at
    ensures Flows(b, multiset{}, b.openedAt, TwoProbes(at), p, m, silent) && !OneProbe(b, false, TwoProbes(at), p)
    ensures var call := Attempt(at, at, Bad); FailedIn(TwoProbes(at)) == [call, call]
  {
    var call, cooled := Attempt(at, at, Bad), b.(state := HalfOpen);
    var none: seq<Moment> := [];
    hide Flows, OneProbe, FailedIn;
    AsksFirst(b, multiset{}, b.openedAt, false, at, [Asks(at)] + ([Ends(call)] + ([Ends(call)] + none)), p, m, silent);
    AsksFirst(cooled, multiset{at}, at, true, at, [Ends(call)] + ([Ends(call)] + none), p, m, silent);
    EndsFirst(cooled, multiset{at, at}, at, true, call, [Ends(call)] + none, p, m, silent);
    EndsFirst(AfterFailure(cooled, at, p), multiset{at}, at, true, call, none, p, m, silent);
    var again := AfterFailure(AfterFailure(cooled, at, p), at, p);
    NothingHappens(again, at, true, p, m, silent);
    assert multiset{at} + multiset{at} == multiset{at, at} && multiset{} + multiset{at} == multiset{at};
    assert multiset{at, at} - multiset{at} == multiset{at} && multiset{at} - multiset{at} == multiset{};
  }

  /** With two callers at once, threshold + 2 calls fail within one cooldown, and two of them are probes. */
  lemma OverlapExceeds(now: real, p: Policy, m: nat, silent: bool) returns (h: seq<Moment>)
    requires p.threshold >= 1 && p.cooldown >= 0.0 && m >= 2
    ensures Traffic(Fresh, now, h, p, m, silent) && NoneGood(h)
    ensures !OneProbe(Fresh, false, h, p)
    ensures |FailedIn(h)| == p.threshold + 2 && Within(FailedIn(h), now, now + p.cooldown)
  {
    var at := now + p.cooldown;
    h := Failing(p.threshold, now) + TwoProbes(at);
    hide Flows, OneProbe, FailedIn, Failing, TwoProbes, Within;
    WindowHolds(p.threshold, now, at);
    NoneGoodAtTwo(at);
    FailingIsBad(p.threshold, now, TwoProbes(at));
    FailingTrips(Fresh, p.threshold, now, now, TwoProbes(at), p, m, silent);
    TwoProbesPass(Reading(p.threshold, Open, now), at, p, m, silent);
    hide NoneGood;
  }

  lemma NoneGoodAtTwo(at: real)
    ensures NoneGood(TwoProbes(at))
  {
  }

  lemma WindowHolds(k: nat, from: real, to: real)
    requires from <= to
    ensures Within(seq(k, i => Attempt(from, from, Bad)) + [Attempt(to, to, Bad), Attempt(to, to, Bad)], from, to)
  {
  }

  /** A call that ends without a report lets the next caller probe at once, turns or not. */
  lemma SilenceAddsProbes(now: real, p: Policy, m: nat) returns (h: seq<Moment>)
    requires p.threshold >= 1 && p.cooldown >= 0.0 && m >= 1
    ensures Traffic(Fresh, now, h, p, m, true) && !OneProbe(Fresh, false, h, p)
  {
    var at := now + p.cooldown;
    var call := Attempt(at, at, Escapes);
    var tripped, cooled := Reading(p.threshold, Open, now), Reading(p.threshold, HalfOpen, now);
    var none: seq<Moment> := [];
    var rest := [Asks(at)] + ([Ends(call)] + ([Asks(at)] + none));
    hide Flows, OneProbe, FailedIn;
    FailingTrips(Fresh, p.threshold, now, now, rest, p, m, true);
    AsksFirst(tripped, multiset{}, now, false, at, [Ends(call)] + ([Asks(at)] + none), p, m, true);
    EndsFirst(cooled, multiset{at}, at, true, call, [Asks(at)] + none, p, m, true);
    AsksFirst(cooled, multiset{}, at, true, at, none, p, m, true);
    LeftInFlight(cooled, at, p, m);
    assert multiset{} + multiset{at} == multiset{at} && multiset{at} - multiset{at} == multiset{};
    h := Failing(p.threshold, now) + rest;
  }

  lemma LeftInFlight(b: Reading, at: real, p: Policy, m: nat)
    requires m >= 1
    ensures Flows(b, multiset{at}, at, [], p, m, true)
  {
  }

  /**
   One probe, exactly. A breaker that is not closed lets at most one caller through between two
   reports, in every history with at most `m` calls in flight, exactly when callers take turns and
   every call that went through reports.
   */
  lemma OneProbeExactlyWhen(p: Policy, m: nat, silent: bool)
    requires p.threshold >= 1 && p.cooldown >= 0.0
    ensures (forall b, now, h :: Traffic(b, now, h, p, m, silent) ==> OneProbe(b, false, h, p)) <==>
      m == 0 || (m == 1 && !silent)
  {
    hide Flows, OneProbe, Sane;
    if m >= 2 {
      var h := OverlapExceeds(0.0, p, m, silent);
    } else if m == 1 && silent {
      var h := SilenceAddsProbes(0.0, p, m);
    } else {
      forall b, now, h | Traffic(b, now, h, p, m, silent) ensures OneProbe(b, false, h, p) {
        LoneCallersProbe(b, multiset{}, now, h, p, m, silent, false);
      }
    }
  }

  // --------------------------------------------------------- the window bound, exactly

  /** The attempts of callers that take turns; one that was turned away has no reply. */
  function AttemptsIn(b: Reading, h: seq<Moment>, p: Policy): seq<Attempt>
    decreases |h|
  {
    if h == [] then []
    else if h[0].Ends? then [h[0].call] + AttemptsIn(AfterMoment(b, h[0], p), h[1..], p)
    else
      (if LetsThrough(b, h[0].at, p) then [] else [Attempt(h[0].at, h[0].at, Escapes)]) +
      AttemptsIn(AfterMoment(b, h[0], p), h[1..], p)
  }

  lemma FirstInTurn(a: Attempt, rest: seq<Attempt>)
    requires Sequential(rest) && a.start <= a.end && (rest != [] ==> a.end <= rest[0].start)
    ensures Sequential([a] + rest)
  {
    var all := [a] + rest;
    forall i, j | 0 <= i < j < |all| ensures all[i].end <= all[j].start {
      assert all[j] == rest[j - 1] && rest[0].start <= rest[0].end;
      assert j > 1 ==> rest[0].end <= rest[j - 1].start;
    }
  }

  /** The one call in flight, if there is one. */
  function Flying(up: Option<real>): multiset<real> {
    if up.Some? then multiset{up.value} else multiset{}
  }

  /** A breaker with a call in flight and no other is not open. */
  predicate OneUp(b: Reading, up: Option<real>, now: real) {
    up.Some? ==> up.value <= now && b.state != Open
  }

  /** The history as attempts: in turn, the same calls failed, and the first is the one in flight if there is one. */
  ghost predicate InTurn(b: Reading, up: Option<real>, now: real, h: seq<Moment>, p: Policy) {
    var attempts := AttemptsIn(b, h, p);
    && Sequential(attempts)
    && FailedCalls(b, attempts, p) == FailedIn(h)
    && (NoneGood(h) ==> NoSuccess(attempts))
    && (attempts != [] ==>
        if up.None? then now <= attempts[0].start else attempts[0].start == up.value && now <= attempts[0].end)
  }

  lemma EndsInTurn(b: Reading, up: Option<real>, now: real, h: seq<Moment>, p: Policy)
    requires h != [] && h[0].Ends? && now <= h[0].call.end && OneUp(b, up, now) && up == Some(h[0].call.start)
    requires InTurn(AfterMoment(b, h[0], p), None, h[0].call.end, h[1..], p)
    ensures InTurn(b, up, now, h, p)
  {
    var call, rest := h[0].call, AttemptsIn(AfterMoment(b, h[0], p), h[1..], p);
    assert AttemptsIn(b, h, p) == [call] + rest && ([call] + rest)[1..] == rest;
    FirstInTurn(call, rest);
    hide Sequential;
    assert NoneGood(h) ==> NoneGood(h[1..]) && call.reply != Good;
  }

  lemma AwayInTurn(b: Reading, now: real, h: seq<Moment>, p: Policy)
    requires h != [] && h[0].Asks? && now <= h[0].at && !LetsThrough(b, h[0].at, p)
    requires InTurn(b, None, h[0].at, h[1..], p)
    ensures InTurn(b, None, now, h, p)
  {
    var at, rest := h[0].at, AttemptsIn(b, h[1..], p);
    var away := Attempt(at, at, Escapes);
    assert AttemptsIn(b, h, p) == [away] + rest && ([away] + rest)[1..] == rest;
    FirstInTurn(away, rest);
    hide Sequential;
    assert NoneGood(h) ==> NoneGood(h[1..]);
  }

  lemma PassesInTurn(b: Reading, now: real, h: seq<Moment>, p: Policy)
    requires h != [] && h[0].Asks? && now <= h[0].at && LetsThrough(b, h[0].at, p)
    requires InTurn(AfterAllow(b, h[0].at, p), Some(h[0].at), h[0].at, h[1..], p)
    ensures InTurn(b, None, now, h, p)
  {
    hide Sequential;
    var rest := AttemptsIn(AfterAllow(b, h[0].at, p), h[1..], p);
    assert AttemptsIn(b, h, p) == [] + rest == rest;
    AllowIsOnce(b, h[0].at, rest, p);
    assert NoneGood(h) ==> NoneGood(h[1..]);
  }

  /** With one call in flight no caller passes, and what ends is that call. */
  lemma OneUpStays(b: Reading, up: Option<real>, now: real, h: seq<Moment>, p: Policy, m: nat, silent: bool)
    returns (up': Option<real>)
    requires Flows(b, Flying(up), now, h, p, m, silent) && m <= 1 && OneUp(b, up, now) && h != []
    ensures Flows(AfterMoment(b, h[0], p), Flying(up'), When(h[0]), h[1..], p, m, silent) && now <= When(h[0])
    ensures OneUp(AfterMoment(b, h[0], p), up', When(h[0]))
    ensures h[0].Ends? ==> up == Some(h[0].call.start) && up' == None
    ensures h[0].Asks? ==> up == None && up' == if LetsThrough(b, h[0].at, p) then Some(h[0].at) else None
  {
    var flying' := FlyingAfter(Flying(up), b, h[0], p);
    assert |flying'| <= 1;
    match h[0]
    case Ends(call) =>
      up' := None;
      assert flying' == Flying(up');
    case Asks(at) =>
      if up.Some? {
        assert false;
      }
      up' := if LetsThrough(b, at, p) then Some(at) else None;
      assert flying' == Flying(up');
  }

  lemma {:induction false} TurnsAreAttempts(b: Reading, up: Option<real>, now: real, h: seq<Moment>, p: Policy, m: nat,
                                            silent: bool)
    requires Flows(b, Flying(up), now, h, p, m, silent) && m <= 1 && OneUp(b, up, now)
    ensures InTurn(b, up, now, h, p)
    decreases |h|
  {
    if h != [] {
      var b' := AfterMoment(b, h[0], p);
      var up' := OneUpStays(b, up, now, h, p, m, silent);
      hide InTurn, Flows;
      TurnsAreAttempts(b', up', When(h[0]), h[1..], p, m, silent);
      match h[0]
      case Ends(_) => EndsInTurn(b, up, now, h, p);
      case Asks(at) =>
        if LetsThrough(b, at, p) {
          PassesInTurn(b, now, h, p);
        } else {
          AwayInTurn(b, now, h, p);
        }
    }
  }

  /** Being let through twice at one moment is being let through once. */
  lemma AllowIsOnce(b: Reading, at: real, attempts: seq<Attempt>, p: Policy)
    requires LetsThrough(b, at, p) && (attempts != [] ==> attempts[0].start == at)
    ensures FailedCalls(AfterAllow(b, at, p), attempts, p) == FailedCalls(b, attempts, p)
  {
  }

  /** Callers that take turns keep to the bound. */
  lemma TurnsAreBounded(b: Reading, now: real, h: seq<Moment>, p: Policy, m: nat, silent: bool)
    requires Traffic(b, now, h, p, m, silent) && NoneGood(h) && m <= 1
    requires p.threshold >= 1 && p.cooldown >= 0.0
    ensures Bounded(FailedIn(h), p)
  {
    var attempts := AttemptsIn(b, h, p);
    TurnsAreAttempts(b, None, now, h, p, m, silent);
    hide Flows, FailedCalls, FailedIn, AttemptsIn, Times, Sequential, NoneGood, NoSuccess, Bounded;
    WindowBound(b, attempts, p);
    SpanBounds(FailedIn(h), p);
  }

  lemma SpanBounds(calls: seq<Attempt>, p: Policy)
    requires |calls| > p.threshold >= 1 ==>
      Times(|calls| - p.threshold, p.cooldown) <= calls[|calls| - 1].start - calls[0].start
    requires p.threshold >= 1
    ensures Bounded(calls, p)
  {
    if |calls| > p.threshold {
      forall from, to | Within(calls, from, to) ensures Times(|calls| - p.threshold, p.cooldown) <= to - from {
        assert calls[0] in calls && calls[|calls| - 1] in calls;
      }
    }
  }

  /**
   The bound, exactly. From any past on, what fails of a history without a success is within
   threshold + W / cooldown, in every history with at most `m` calls in flight, whether or not they
   all report, exactly when callers take turns; without a cooldown the bound says nothing.
   */
  lemma BoundExactlyWhen(p: Policy, m: nat, silent: bool)
    requires p.threshold >= 1 && p.cooldown >= 0.0
    ensures (forall b, now, h :: Traffic(b, now, h, p, m, silent) && NoneGood(h) ==> Bounded(FailedIn(h), p)) <==>
      m <= 1 || p.cooldown == 0.0
  {
    hide Traffic, FailedIn, NoneGood, Times;
    if m <= 1 {
      forall b, now, h | Traffic(b, now, h, p, m, silent) && NoneGood(h) ensures Bounded(FailedIn(h), p) {
        TurnsAreBounded(b, now, h, p, m, silent);
      }
    } else if p.cooldown == 0.0 {
      forall b, now, h | Traffic(b, now, h, p, m, silent) && NoneGood(h) ensures Bounded(FailedIn(h), p) {
        NoCooldownNoBound(FailedIn(h), p);
      }
    } else {
      var h := OverlapExceeds(0.0, p, m, silent);
      TimesNext(1, p.cooldown);
      TimesNext(0, p.cooldown);
    }
  }

  lemma NoCooldownNoBound(calls: seq<Attempt>, p: Policy)
    requires p.threshold >= 1 && p.cooldown == 0.0
    ensures Bounded(calls, p)
  {
    if |calls| > p.threshold {
      forall from, to | Within(calls, from, to) ensures Times(|calls| - p.threshold, p.cooldown) <= to - from {
        assert calls[0] in calls;
      }
    }
  }


  // -------------------------------------------------------------------- the object

  class Breaker {
    var failures: nat
    var state: State
    var openedAt: real

    constructor ()
      ensures Now() == Fresh
    {
      failures, state, openedAt := 0, Closed, 0.0;
    }

    function Now(): Reading
      reads this
    {
      Reading(failures, state, openedAt)
    }

    method Allow(now: real, p: Policy) returns (allowed: bool)
      modifies this`state
      ensures allowed == LetsThrough(old(Now()), now, p) && Now() == AfterAllow(old(Now()), now, p)
      ensures allowed <==> old(state) != Open || now - old(openedAt) >= p.cooldown
      ensures state == if allowed && old(state) == Open then HalfOpen else old(state)
    {
      if state == Open {
        if now - openedAt >= p.cooldown {
          state := HalfOpen;
          return true;
        }
        return false;
      }
      return true;
    }

    method RecordSuccess()
      modifies this`failures, this`state
      ensures Now() == AfterSuccess(old(Now())) && failures == 0 && state == Closed
    {
      failures := 0;
      state := Closed;
    }

    method RecordFailure(now: real, p: Policy)
      modifies this
      ensures Now() == AfterFailure(old(Now()), now, p) && failures == old(failures) + 1
      ensures if old(state) == HalfOpen || failures >= p.threshold then state == Open && openedAt == now
              else state == old(state) && openedAt == old(openedAt)
    {
      failures := failures + 1;
      if state == HalfOpen || failures >= p.threshold {
        state := Open;
        openedAt := now;
      }
    }
  }

  /** The process's breakers by name; each name keeps its one object. */
  class Registry {
    var breakers: map<string, Breaker>

    constructor ()
      ensures Valid() && breakers == map[]
    {
      breakers := map[];
    }

    /** No breaker serves two names. */
    ghost predicate Valid()
      reads this
    {
      forall m, n :: m in breakers && n in breakers && breakers[m] == breakers[n] ==> m == n
    }

    function ReadingOf(name: string): Reading
      reads this, breakers.Values
    {
      if name in breakers then
        assert breakers[name] in breakers.Values;
        breakers[name].Now()
      else Fresh
    }

    /** The breaker of that name, made on first use; asking for it changes no reading. */
    method GetBreaker(name: string) returns (b: Breaker)
      requires Valid()
      modifies this
      ensures Valid() && name in breakers && breakers[name] == b
      ensures name in old(breakers) ==> breakers == old(breakers)
      ensures name !in old(breakers) ==> fresh(b) && breakers == old(breakers)[name := b]
      ensures forall n :: ReadingOf(n) == old(ReadingOf(n))
    {
      var made := new Breaker();
      if name !in breakers {
        breakers := breakers[name := made];
      }
      b := breakers[name];
    }
  }
}
