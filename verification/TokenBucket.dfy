/**
 The two token buckets: the gateway's, a script over a Redis hash that rewrites its state on every
 call and lets idle keys expire, and the AI service's, a dictionary that leaves its state alone on
 a denial. Times are seconds and tokens are counted in real numbers.
 */
module TokenBucket {
  import opened Prelude

  datatype Limits = Limits(capacity: real, refill: real)

  /** A bucket that can serve one request and that refills. */
  predicate ValidLimits(l: Limits) {
    l.capacity >= 1.0 && l.refill > 0.0
  }

  datatype Bucket = Bucket(tokens: real, ts: real)

  datatype Answer = Answer(allowed: bool, wait: real)

  datatype Ask = Ask(now: real, want: real)

  predicate InRange(l: Limits, s: Option<Bucket>) {
    s.Some? ==> 0.0 <= s.value.tokens <= l.capacity
  }

  /** What a stretch of time refills. */
  function Refill(l: Limits, time: real): real {
    time * l.refill
  }

  /** The time a shortfall takes to refill. */
  function Wait(l: Limits, short: real): real
    requires ValidLimits(l)
  {
    short / l.refill
  }

  /** Tokens there are at `now`: a missing bucket is full, and a clock that went back refills nothing. */
  function Level(l: Limits, s: Option<Bucket>, now: real): real {
    match s
    case None => l.capacity
    case Some(b) => Min(l.capacity, b.tokens + Refill(l, Max(0.0, now - b.ts)))
  }

  function AnswerAt(l: Limits, level: real, want: real): Answer
    requires ValidLimits(l)
  {
    if level >= want then Answer(true, 0.0) else Answer(false, Wait(l, want - level))
  }

  /** The script's answer, ... */
  function ScriptAnswer(l: Limits, s: Option<Bucket>, ask: Ask): Answer
    requires ValidLimits(l)
  {
    AnswerAt(l, Level(l, s, ask.now), ask.want)
  }

  /** ... and the state it writes, allowed or not, even when `now` went back. */
  function ScriptState(l: Limits, s: Option<Bucket>, ask: Ask): Bucket {
    var level := Level(l, s, ask.now);
    Bucket(if level >= ask.want then level - ask.want else level, ask.now)
  }

  // ------------------------------------------------------------------- arithmetic

  lemma RefillGrows(l: Limits, a: real, b: real)
    requires ValidLimits(l) && a <= b
    ensures Refill(l, a) <= Refill(l, b)
    ensures Refill(l, 0.0) == 0.0
  {
  }

  lemma RefillAdds(l: Limits, a: real, b: real)
    ensures Refill(l, a + b) == Refill(l, a) + Refill(l, b)
  {
  }

  /** Waiting the time a shortfall takes refills exactly the shortfall. */
  lemma WaitRefills(l: Limits, short: real)
    requires ValidLimits(l)
    ensures Refill(l, Wait(l, short)) == short
  {
  }

  // ---------------------------------------------------------------- window bound

  /** Tokens granted to a sequence of calls. */
  function Granted(l: Limits, s: Option<Bucket>, asks: seq<Ask>): real
    requires ValidLimits(l)
    decreases |asks|
  {
    if asks == [] then 0.0
    else
      (if ScriptAnswer(l, s, asks[0]).allowed then asks[0].want else 0.0) +
      Granted(l, Some(ScriptState(l, s, asks[0])), asks[1..])
  }

  /** The sum of the clock's upward moves, from `from` on. */
  function Climb(from: real, asks: seq<Ask>): real
    decreases |asks|
  {
    if asks == [] then 0.0 else Max(0.0, asks[0].now - from) + Climb(asks[0].now, asks[1..])
  }

  predicate Wants(asks: seq<Ask>) {
    forall i :: 0 <= i < |asks| ==> asks[i].want >= 0.0
  }

  /** Tokens stay between zero and the capacity, whatever the clock does. */
  lemma StaysInRange(l: Limits, s: Option<Bucket>, ask: Ask)
    requires ValidLimits(l) && InRange(l, s) && ask.want >= 0.0
    ensures 0.0 <= Level(l, s, ask.now) <= l.capacity
    ensures InRange(l, Some(ScriptState(l, s, ask)))
  {
    if s.Some? {
      RefillGrows(l, 0.0, Max(0.0, ask.now - s.value.ts));
    }
  }

  lemma {:induction false} GrantedFrom(l: Limits, b: Bucket, asks: seq<Ask>)
    requires ValidLimits(l) && InRange(l, Some(b)) && Wants(asks)
    ensures Granted(l, Some(b), asks) <= b.tokens + Refill(l, Climb(b.ts, asks))
    decreases |asks|
  {
    hide Refill;
    if asks == [] {
      RefillGrows(l, 0.0, 0.0);
    } else {
      var up := Max(0.0, asks[0].now - b.ts);
      var next := ScriptState(l, Some(b), asks[0]);
      StaysInRange(l, Some(b), asks[0]);
      GrantedFrom(l, next, asks[1..]);
      RefillAdds(l, up, Climb(asks[0].now, asks[1..]));
    }
  }

  /**
   The window bound: from whatever state, any stretch of calls is granted at most a full bucket
   plus what the clock's upward moves inside the stretch refill.
   */
  lemma WindowBound(l: Limits, s: Option<Bucket>, asks: seq<Ask>)
    requires ValidLimits(l) && InRange(l, s) && Wants(asks) && asks != []
    ensures Granted(l, s, asks) <= l.capacity + Refill(l, Climb(asks[0].now, asks[1..]))
  {
    hide Refill;
    StaysInRange(l, s, asks[0]);
    GrantedFrom(l, ScriptState(l, s, asks[0]), asks[1..]);
  }

  ghost predicate Monotone(asks: seq<Ask>) {
    forall i, j :: 0 <= i < j < |asks| ==> asks[i].now <= asks[j].now
  }

  lemma {:induction false} MonotoneClimb(from: real, asks: seq<Ask>)
    requires Monotone(asks) && asks != [] && from <= asks[0].now
    ensures Climb(from, asks) == asks[|asks| - 1].now - from
    decreases |asks|
  {
    if |asks| > 1 {
      MonotoneClimb(asks[0].now, asks[1..]);
    } else {
      assert asks[1..] == [];
    }
  }

  /** On a clock that never goes back: at most a full bucket plus the refill over the window. */
  lemma MonotoneWindowBound(l: Limits, s: Option<Bucket>, asks: seq<Ask>)
    requires ValidLimits(l) && InRange(l, s) && Wants(asks) && asks != [] && Monotone(asks)
    ensures Granted(l, s, asks) <= l.capacity + Refill(l, asks[|asks| - 1].now - asks[0].now)
  {
    hide Refill;
    WindowBound(l, s, asks);
    if |asks| > 1 {
      MonotoneClimb(asks[0].now, asks[1..]);
    }
  }

  // ---------------------------------------------------------------- exact waiting

  /** A denied call is unobservable: every later level is what it would have been without it. */
  lemma DenialChangesNothing(l: Limits, b: Bucket, ask: Ask, later: real)
    requires ValidLimits(l) && InRange(l, Some(b)) && b.ts <= ask.now <= later
    requires !ScriptAnswer(l, Some(b), ask).allowed
    ensures Level(l, Some(ScriptState(l, Some(b), ask)), later) == Level(l, Some(b), later)
  {
    hide Refill;
    RefillAdds(l, ask.now - b.ts, later - ask.now);
    RefillGrows(l, 0.0, later - ask.now);
  }

  /** Calls for the same number of tokens, in order, all before `until`. */
  ghost predicate Retries(asks: seq<Ask>, from: real, until: real, want: real) {
    && Monotone(asks)
    && forall i :: 0 <= i < |asks| ==> from <= asks[i].now < until && asks[i].want == want
  }

  /** The state some calls leave behind. */
  function StateAfter(l: Limits, s: Option<Bucket>, asks: seq<Ask>): Option<Bucket>
    decreases |asks|
  {
    if asks == [] then s else StateAfter(l, Some(ScriptState(l, s, asks[0])), asks[1..])
  }

  /**
   The wait is exact. If `want` tokens are short at time `t`, then whatever calls for them are made
   before the wait is over are all denied, and after them a call is admitted exactly when the wait
   is over.
   */
  lemma {:induction false} WaitIsExact(l: Limits, b: Bucket, t: real, want: real, asks: seq<Ask>, retry: real)
    requires ValidLimits(l) && InRange(l, Some(b)) && b.ts <= t && want <= l.capacity
    requires !ScriptAnswer(l, Some(b), Ask(t, want)).allowed
    requires var over := t + ScriptAnswer(l, Some(b), Ask(t, want)).wait;
      Retries(asks, t, over, want) && t <= retry && forall i :: 0 <= i < |asks| ==> asks[i].now <= retry
    ensures Granted(l, Some(b), asks) == 0.0
    ensures ScriptAnswer(l, StateAfter(l, Some(b), asks), Ask(retry, want)).allowed <==>
            retry >= t + ScriptAnswer(l, Some(b), Ask(t, want)).wait
    decreases |asks|
  {
    var level := Level(l, Some(b), t);
    var over := t + Wait(l, want - level);
    if asks == [] {
      LevelReaches(l, b, t, want, retry);
    } else {
      var b' := ScriptState(l, Some(b), asks[0]);
      LevelReaches(l, b, t, want, asks[0].now);
      WaitShrinks(l, b, t, want, asks[0].now);
      StaysBelow(l, b, asks[0]);
      WaitIsExact(l, b', asks[0].now, want, asks[1..], retry);
    }
  }

  /** The level reaches `want` exactly when the wait is over. */
  lemma LevelReaches(l: Limits, b: Bucket, t: real, want: real, at: real)
    requires ValidLimits(l) && InRange(l, Some(b)) && b.ts <= t <= at && want <= l.capacity
    requires Level(l, Some(b), t) < want
    ensures Level(l, Some(b), at) >= want <==> at >= t + Wait(l, want - Level(l, Some(b), t))
  {
    var wait := Wait(l, want - Level(l, Some(b), t));
    WaitRefills(l, want - Level(l, Some(b), t));
    RefillAdds(l, t - b.ts, at - t);
    RefillGrows(l, t - b.ts, at - b.ts);
    if at - t < wait {
      RefillLess(l, at - t, wait);
    } else {
      RefillGrows(l, wait, at - t);
    }
    hide Refill;
  }

  lemma RefillLess(l: Limits, a: real, b: real)
    requires ValidLimits(l) && a < b
    ensures Refill(l, a) < Refill(l, b)
  {
  }

  /** A later denied call is told to wait for the same moment. */
  lemma WaitShrinks(l: Limits, b: Bucket, t: real, want: real, at: real)
    requires ValidLimits(l) && InRange(l, Some(b)) && b.ts <= t <= at && want <= l.capacity
    requires Level(l, Some(b), t) < want && Level(l, Some(b), at) < want
    ensures at + Wait(l, want - Level(l, Some(b), at)) == t + Wait(l, want - Level(l, Some(b), t))
  {
    RefillAdds(l, t - b.ts, at - t);
    RefillGrows(l, 0.0, at - t);
    assert Level(l, Some(b), at) == Level(l, Some(b), t) + Refill(l, at - t) by { hide Refill; }
    WaitShifts(l, want - Level(l, Some(b), t), at - t);
  }

  lemma WaitShifts(l: Limits, x: real, d: real)
    requires ValidLimits(l)
    ensures Wait(l, x - Refill(l, d)) == Wait(l, x) - d
  {
  }

  lemma StaysBelow(l: Limits, b: Bucket, ask: Ask)
    requires ValidLimits(l) && InRange(l, Some(b)) && b.ts <= ask.now
    requires !ScriptAnswer(l, Some(b), ask).allowed
    ensures InRange(l, Some(ScriptState(l, Some(b), ask)))
    ensures Level(l, Some(ScriptState(l, Some(b), ask)), ask.now) == Level(l, Some(b), ask.now)
  {
    RefillGrows(l, 0.0, ask.now - b.ts);
    hide Refill;
  }

  /** The whole seconds sent as Retry-After. */
  function RetryAfter(wait: real): int {
    wait.Floor + 1
  }

  /** The header always covers the wait, by no more than a second: a lone caller who obeys it is admitted. */
  lemma HeaderIsLongEnough(l: Limits, b: Bucket, t: real)
    requires ValidLimits(l) && InRange(l, Some(b)) && b.ts <= t
    requires !ScriptAnswer(l, Some(b), Ask(t, 1.0)).allowed
    ensures var wait := ScriptAnswer(l, Some(b), Ask(t, 1.0)).wait;
      var b' := ScriptState(l, Some(b), Ask(t, 1.0));
      && wait < RetryAfter(wait) as real <= wait + 1.0
      && 1 <= RetryAfter(wait)
      && ScriptAnswer(l, Some(b'), Ask(t + RetryAfter(wait) as real, 1.0)).allowed
  {
    var level := Level(l, Some(b), t);
    var wait := Wait(l, 1.0 - level);
    WaitIsPositive(l, 1.0 - level);
    var retry := t + RetryAfter(wait) as real;
    LevelReaches(l, b, t, 1.0, retry);
    DenialChangesNothing(l, b, Ask(t, 1.0), retry);
  }

  lemma WaitIsPositive(l: Limits, short: real)
    requires ValidLimits(l) && short > 0.0
    ensures Wait(l, short) > 0.0
  {
  }

  // -------------------------------------------------------------- two algorithms

  /** The dictionary's answer: no guard against a clock that went back, and one token a call. */
  function MemoryLevel(l: Limits, s: Option<Bucket>, now: real): real {
    match s
    case None => Min(l.capacity, l.capacity)
    case Some(b) => Min(l.capacity, b.tokens + Refill(l, now - b.ts))
  }

  function MemoryAnswer(l: Limits, s: Option<Bucket>, now: real): Answer
    requires ValidLimits(l)
  {
    AnswerAt(l, MemoryLevel(l, s, now), 1.0)
  }

  /** A denial leaves the dictionary as it was. */
  function MemoryState(l: Limits, s: Option<Bucket>, now: real): Option<Bucket> {
    if MemoryLevel(l, s, now) < 1.0 then s else Some(Bucket(MemoryLevel(l, s, now) - 1.0, now))
  }

  /** The dictionary's header likewise: it covers the wait, by no more than a second, and waiting for it is enough. */
  lemma MemoryHeaderIsLongEnough(l: Limits, b: Bucket, t: real)
    requires ValidLimits(l) && InRange(l, Some(b)) && b.ts <= t && !MemoryAnswer(l, Some(b), t).allowed
    ensures var wait := MemoryAnswer(l, Some(b), t).wait;
      && wait < RetryAfter(wait) as real <= wait + 1.0
      && 1 <= RetryAfter(wait)
      && MemoryAnswer(l, MemoryState(l, Some(b), t), t + RetryAfter(wait) as real).allowed
  {
    HeaderIsLongEnough(l, b, t);
    var wait := MemoryAnswer(l, Some(b), t).wait;
    DenialChangesNothing(l, b, Ask(t, 1.0), t + RetryAfter(wait) as real);
    hide Refill;
  }

  function ScriptAnswers(l: Limits, s: Option<Bucket>, nows: seq<real>): (answers: seq<Answer>)
    requires ValidLimits(l)
    ensures |answers| == |nows|
    decreases |nows|
  {
    if nows == [] then []
    else
      [ScriptAnswer(l, s, Ask(nows[0], 1.0))] +
      ScriptAnswers(l, Some(ScriptState(l, s, Ask(nows[0], 1.0))), nows[1..])
  }

  function MemoryAnswers(l: Limits, s: Option<Bucket>, nows: seq<real>): (answers: seq<Answer>)
    requires ValidLimits(l)
    ensures |answers| == |nows|
    decreases |nows|
  {
    if nows == [] then [] else [MemoryAnswer(l, s, nows[0])] + MemoryAnswers(l, MemoryState(l, s, nows[0]), nows[1..])
  }

  /** The script's tokens are the dictionary's, brought up to date. */
  ghost predicate UpToDate(l: Limits, script: Option<Bucket>, memory: Option<Bucket>) {
    || (script.None? && memory.None?)
    || (&& script.Some? && memory.Some? && memory.value.ts <= script.value.ts
        && 0.0 <= memory.value.tokens <= l.capacity
        && script.value.tokens == Min(l.capacity, memory.value.tokens + Refill(l, script.value.ts - memory.value.ts)))
  }

  lemma SameLevel(l: Limits, script: Option<Bucket>, memory: Option<Bucket>, now: real)
    requires ValidLimits(l) && UpToDate(l, script, memory) && (script.Some? ==> script.value.ts <= now)
    ensures Level(l, script, now) == MemoryLevel(l, memory, now)
    ensures MemoryLevel(l, memory, now) >= 0.0
    ensures UpToDate(l, Some(ScriptState(l, script, Ask(now, 1.0))), MemoryState(l, memory, now))
  {
    RefillGrows(l, 0.0, 0.0);
    if script.Some? {
      RefillAdds(l, script.value.ts - memory.value.ts, now - script.value.ts);
      RefillGrows(l, 0.0, now - script.value.ts);
      RefillGrows(l, 0.0, now - memory.value.ts);
    }
    hide Refill;
  }

  ghost predicate Rising(nows: seq<real>) {
    forall i, j :: 0 <= i < j < |nows| ==> nows[i] <= nows[j]
  }

  /** On every sequence of times that never goes back, both buckets give the same answers and the same waits. */
  lemma {:induction false} BucketsAgree(l: Limits, script: Option<Bucket>, memory: Option<Bucket>, nows: seq<real>)
    requires ValidLimits(l) && UpToDate(l, script, memory) && Rising(nows)
    requires script.Some? && nows != [] ==> script.value.ts <= nows[0]
    ensures ScriptAnswers(l, script, nows) == MemoryAnswers(l, memory, nows)
    decreases |nows|
  {
    hide Refill, UpToDate;
    if nows != [] {
      SameLevel(l, script, memory, nows[0]);
      BucketsAgree(l, Some(ScriptState(l, script, Ask(nows[0], 1.0))), MemoryState(l, memory, nows[0]), nows[1..]);
    }
  }

  /** On a clock that goes back they differ: the script refills nothing, the dictionary takes tokens away. */
  lemma BackwardClockSeparates(l: Limits, t: real)
    requires ValidLimits(l)
    ensures var nows := [t, t - Wait(l, l.capacity)];
      && ScriptAnswers(l, None, nows) != MemoryAnswers(l, None, nows)
      && (ScriptAnswers(l, None, nows)[1].allowed <==> l.capacity >= 2.0)
      && !MemoryAnswers(l, None, nows)[1].allowed
  {
    var d := Wait(l, l.capacity);
    WaitRefills(l, l.capacity);
    var nows := [t, t - d];
    assert nows[1..] == [t - d];
    var b := Bucket(l.capacity - 1.0, t);
    assert MemoryState(l, None, t) == Some(b) && ScriptState(l, None, Ask(t, 1.0)) == b;
    RefillAdds(l, d, -d);
    RefillGrows(l, 0.0, 0.0);
    WaitIsPositive(l, l.capacity);
    assert t - d - t == -d;
    hide Refill;
    assert MemoryLevel(l, Some(b), t - d) == -1.0;
    assert Level(l, Some(b), t - d) == l.capacity - 1.0;
    WaitsDiffer(l, l.capacity - 1.0, -1.0);
    assert ScriptAnswers(l, None, nows)[1] == AnswerAt(l, l.capacity - 1.0, 1.0);
    assert MemoryAnswers(l, None, nows)[1] == AnswerAt(l, -1.0, 1.0);
  }

  /** Two levels too low for a token are told to wait differently. */
  lemma WaitsDiffer(l: Limits, a: real, b: real)
    requires ValidLimits(l) && a > b && b < 1.0
    ensures AnswerAt(l, a, 1.0) != AnswerAt(l, b, 1.0)
  {
    if a < 1.0 {
      WaitRefills(l, 1.0 - a);
      WaitRefills(l, 1.0 - b);
    }
  }

  function CountAllowed(answers: seq<Answer>): nat {
    if answers == [] then 0 else (if answers[0].allowed then 1 else 0) + CountAllowed(answers[1..])
  }

  function SingleAsks(nows: seq<real>): seq<Ask> {
    seq(|nows|, i requires 0 <= i < |nows| => Ask(nows[i], 1.0))
  }

  lemma {:induction false} GrantedIsCounted(l: Limits, s: Option<Bucket>, nows: seq<real>)
    requires ValidLimits(l)
    ensures Granted(l, s, SingleAsks(nows)) == CountAllowed(ScriptAnswers(l, s, nows)) as real
    decreases |nows|
  {
    if nows != [] {
      assert SingleAsks(nows)[1..] == SingleAsks(nows[1..]);
      assert ScriptAnswers(l, s, nows)[1..] == ScriptAnswers(l, Some(ScriptState(l, s, Ask(nows[0], 1.0))), nows[1..]);
      GrantedIsCounted(l, Some(ScriptState(l, s, Ask(nows[0], 1.0))), nows[1..]);
    }
  }

  /** Either bucket admits, in any window, at most its capacity plus the window's refill. */
  lemma AdmittedInWindow(l: Limits, script: Option<Bucket>, memory: Option<Bucket>, nows: seq<real>)
    requires ValidLimits(l) && UpToDate(l, script, memory) && InRange(l, script) && Rising(nows) && nows != []
    requires script.Some? ==> script.value.ts <= nows[0]
    ensures CountAllowed(ScriptAnswers(l, script, nows)) as real <= l.capacity + Refill(l, nows[|nows| - 1] - nows[0])
    ensures CountAllowed(MemoryAnswers(l, memory, nows)) as real <= l.capacity + Refill(l, nows[|nows| - 1] - nows[0])
  {
    hide Refill;
    GrantedIsCounted(l, script, nows);
    MonotoneWindowBound(l, script, SingleAsks(nows));
    BucketsAgree(l, script, memory, nows);
  }

  // ------------------------------------------------------------- clocks that step back

  /** Starting from `from`, no call's clock is more than `d` behind the one before it. */
  ghost predicate BackFrom(from: real, nows: seq<real>, d: real)
    decreases |nows|
  {
    nows == [] || (nows[0] >= from - d && BackFrom(nows[0], nows[1..], d))
  }

  ghost predicate BackBy(nows: seq<real>, d: real) {
    nows == [] || BackFrom(nows[0], nows[1..], d)
  }

  /** The bound in terms of the first and the last call alone. */
  ghost predicate SimpleBound(l: Limits, nows: seq<real>)
    requires ValidLimits(l)
  {
    nows != [] ==>
      CountAllowed(ScriptAnswers(l, None, nows)) as real <= l.capacity + Refill(l, nows[|nows| - 1] - nows[0])
  }

  /** `k` portions of `g`. */
  function Portions(k: nat, g: real): real {
    k as real * g
  }

  lemma EnoughPortions(g: real) returns (k: nat)
    requires g > 0.0
    ensures Portions(k, g) >= 1.0
  {
    k := (1.0 / g).Floor + 1;
    assert k as real >= 1.0 / g;
    assert k as real * g >= (1.0 / g) * g;
  }

  lemma OnePortionLess(k: nat, g: real)
    requires k > 0
    ensures Portions(k, g) == Portions(k - 1, g) + g
  {
  }

  lemma NoPortions(g: real)
    ensures Portions(0, g) == 0.0
  {
  }

  lemma FirstCall(l: Limits, s: Option<Bucket>, from: real, now: real, rest: seq<real>, d: real)
    requires ValidLimits(l)
    ensures var first, after := ScriptAnswer(l, s, Ask(now, 1.0)), Some(ScriptState(l, s, Ask(now, 1.0)));
      CountAllowed(ScriptAnswers(l, s, [now] + rest)) ==
      (if first.allowed then 1 else 0) + CountAllowed(ScriptAnswers(l, after, rest))
    ensures BackFrom(from, [now] + rest, d) <==> now >= from - d && BackFrom(now, rest, d)
  {
    assert ([now] + rest)[1..] == rest;
    var answers := ScriptAnswers(l, Some(ScriptState(l, s, Ask(now, 1.0))), rest);
    assert ScriptAnswers(l, s, [now] + rest) == [ScriptAnswer(l, s, Ask(now, 1.0))] + answers;
    assert ([ScriptAnswer(l, s, Ask(now, 1.0))] + answers)[1..] == answers;
  }

  /** A denied call at `t - d` sets the clock back, so the next one at `t` refills `d` once more. */
  lemma StepBack(l: Limits, tokens: real, t: real, d: real)
    requires ValidLimits(l) && d > 0.0 && 0.0 <= tokens < 1.0
    ensures !ScriptAnswer(l, Some(Bucket(tokens, t)), Ask(t - d, 1.0)).allowed
    ensures ScriptState(l, Some(Bucket(tokens, t)), Ask(t - d, 1.0)) == Bucket(tokens, t - d)
    ensures Level(l, Some(Bucket(tokens, t - d)), t) == Min(l.capacity, tokens + Refill(l, d))
  {
    RefillGrows(l, 0.0, d);
    hide Refill, Wait;
    assert Max(0.0, t - d - t) == 0.0 && Max(0.0, t - (t - d)) == d;
  }

  /** What stepping back and forth comes to, starting at time `t` with some tokens. */
  ghost predicate Overdraws(l: Limits, tokens: real, t: real, d: real, nows: seq<real>)
    requires ValidLimits(l)
  {
    && nows != [] && nows[|nows| - 1] == t && BackFrom(t, nows, d)
    && CountAllowed(ScriptAnswers(l, Some(Bucket(tokens, t)), nows)) as real > tokens
  }

  /** With a token there, draw it first. */
  lemma DrawsThenOverdraws(l: Limits, tokens: real, t: real, d: real, rest: seq<real>)
    requires ValidLimits(l) && d > 0.0 && 1.0 <= tokens <= l.capacity && Overdraws(l, tokens - 1.0, t, d, rest)
    ensures Overdraws(l, tokens, t, d, [t] + rest)
  {
    RefillGrows(l, 0.0, 0.0);
    hide Refill, Wait, ScriptAnswers, CountAllowed, BackFrom;
    FirstCall(l, Some(Bucket(tokens, t)), t, t, rest, d);
  }

  /** Without one, step back and forth once; if a token has accrued, draw it. */
  lemma StepsThenDraws(l: Limits, tokens: real, t: real, d: real)
    requires ValidLimits(l) && d > 0.0 && 0.0 <= tokens < 1.0 <= tokens + Refill(l, d)
    ensures Overdraws(l, tokens, t, d, [t - d] + ([t] + []))
  {
    var none: seq<real> := [];
    StepBack(l, tokens, t, d);
    NothingAsked(l, Some(ScriptState(l, Some(Bucket(tokens, t - d)), Ask(t, 1.0))), t, d);
    hide Refill, Wait, ScriptAnswers, CountAllowed, BackFrom;
    FirstCall(l, Some(Bucket(tokens, t - d)), t - d, t, none, d);
    FirstCall(l, Some(Bucket(tokens, t)), t, t - d, [t] + none, d);
  }

  /** Otherwise there are more tokens at time `t` than before. */
  lemma StepsThenOverdraws(l: Limits, tokens: real, t: real, d: real, rest: seq<real>)
    requires ValidLimits(l) && d > 0.0 && 0.0 <= tokens && tokens + Refill(l, d) < 1.0 && Refill(l, d) > 0.0
    requires Overdraws(l, tokens + Refill(l, d), t, d, rest)
    ensures Overdraws(l, tokens, t, d, [t - d] + ([t] + rest))
  {
    StepBack(l, tokens, t, d);
    hide Refill, Wait, ScriptAnswers, CountAllowed, BackFrom;
    FirstCall(l, Some(Bucket(tokens, t - d)), t - d, t, rest, d);
    FirstCall(l, Some(Bucket(tokens, t)), t, t - d, [t] + rest, d);
  }

  /** Stepping back and forth between `t` and `t - d` draws more than the tokens there were, in no time at all. */
  lemma {:induction false} BackAndForth(l: Limits, tokens: real, t: real, d: real, k: nat) returns (nows: seq<real>)
    requires ValidLimits(l) && d > 0.0 && 0.0 <= tokens <= l.capacity
    requires (if tokens >= 1.0 then 0.0 else tokens) + Portions(k, Refill(l, d)) >= 1.0
    ensures Overdraws(l, tokens, t, d, nows)
    decreases tokens.Floor, k
  {
    RefillGrows(l, 0.0, 0.0);
    RefillLess(l, 0.0, d);
    hide Refill, Portions, Overdraws;
    if tokens >= 1.0 {
      var rest := BackAndForth(l, tokens - 1.0, t, d, k);
      DrawsThenOverdraws(l, tokens, t, d, rest);
      nows := [t] + rest;
    } else if tokens + Refill(l, d) >= 1.0 {
      StepsThenDraws(l, tokens, t, d);
      nows := [t - d] + ([t] + []);
    } else {
      NoPortions(Refill(l, d));
      OnePortionLess(k, Refill(l, d));
      var rest := BackAndForth(l, tokens + Refill(l, d), t, d, k - 1);
      StepsThenOverdraws(l, tokens, t, d, rest);
      nows := [t - d] + ([t] + rest);
    }
  }

  lemma NothingAsked(l: Limits, s: Option<Bucket>, from: real, d: real)
    requires ValidLimits(l)
    ensures CountAllowed(ScriptAnswers(l, s, [])) == 0 && BackFrom(from, [], d)
  {
  }

  /** However short its steps back, a clock that takes them breaks the simple bound for every bucket, at any time. */
  lemma SteppingClockExceeds(l: Limits, t: real, d: real) returns (nows: seq<real>)
    requires ValidLimits(l) && d > 0.0
    ensures BackBy(nows, d) && !SimpleBound(l, nows) && nows[0] == t
  {
    RefillLess(l, 0.0, d);
    RefillGrows(l, 0.0, 0.0);
    hide Refill, Wait, Portions, ScriptAnswers, CountAllowed, BackFrom;
    var k := EnoughPortions(Refill(l, d));
    var rest := BackAndForth(l, l.capacity - 1.0, t, d, k);
    nows := [t] + rest;
    FirstCall(l, None, t, t, rest, d);
  }

  /** The simple bound holds of all callers exactly when the clock never goes back at all. */
  lemma SimpleBoundExactlyWhen(l: Limits, d: real)
    requires ValidLimits(l) && d >= 0.0
    ensures (forall nows :: BackBy(nows, d) ==> SimpleBound(l, nows)) <==> d == 0.0
  {
    hide Refill, Wait, SimpleBound, BackFrom;
    if d > 0.0 {
      var nows := SteppingClockExceeds(l, 0.0, d);
    } else {
      forall nows | BackBy(nows, d) ensures SimpleBound(l, nows) {
        if nows != [] {
          NeverBackIsRising(nows[0], nows[1..]);
          assert [nows[0]] + nows[1..] == nows;
        }
        RisingIsBounded(l, nows);
      }
    }
  }

  /** At one instant, a script with more tokens than the dictionary is told from it by asking until that denies. */
  lemma {:induction false} FewerTokensShow(l: Limits, script: Option<Bucket>, memory: Option<Bucket>, t: real, d: real)
    returns (nows: seq<real>)
    requires ValidLimits(l) && d > 0.0 && MemoryLevel(l, memory, t) < Level(l, script, t) <= l.capacity
    ensures ScriptAnswers(l, script, nows) != MemoryAnswers(l, memory, nows)
    ensures nows != [] && nows[0] == t && BackFrom(t, nows, d)
    decreases MemoryLevel(l, memory, t).Floor
  {
    var x, y := MemoryLevel(l, memory, t), Level(l, script, t);
    RefillGrows(l, 0.0, 0.0);
    hide Refill, Wait;
    if x < 1.0 {
      nows := [t];
      WaitsDiffer(l, y, x);
      assert ScriptAnswers(l, script, nows)[0] == AnswerAt(l, y, 1.0);
      assert MemoryAnswers(l, memory, nows)[0] == AnswerAt(l, x, 1.0);
    } else {
      var script', memory' := Some(ScriptState(l, script, Ask(t, 1.0))), MemoryState(l, memory, t);
      var rest := FewerTokensShow(l, script', memory', t, d);
      nows := [t] + rest;
      AnswersAfter(l, script, memory, t, rest);
    }
  }

  lemma AnswersAfter(l: Limits, script: Option<Bucket>, memory: Option<Bucket>, now: real, rest: seq<real>)
    requires ValidLimits(l)
    ensures ScriptAnswers(l, script, [now] + rest)[1..] ==
            ScriptAnswers(l, Some(ScriptState(l, script, Ask(now, 1.0))), rest)
    ensures MemoryAnswers(l, memory, [now] + rest)[1..] == MemoryAnswers(l, MemoryState(l, memory, now), rest)
  {
    assert ([now] + rest)[1..] == rest;
  }

  /** However short its step back, a clock that takes one tells the two buckets apart, for all limits, at any time. */
  lemma AnyStepBackSeparates(l: Limits, t: real, d: real) returns (nows: seq<real>)
    requires ValidLimits(l) && d > 0.0
    ensures BackBy(nows, d) && ScriptAnswers(l, None, nows) != MemoryAnswers(l, None, nows)
  {
    var b := Some(Bucket(l.capacity - 1.0, t));
    RefillGrows(l, 0.0, 0.0);
    RefillLess(l, -d, 0.0);
    assert t - d - t == -d;
    assert MemoryLevel(l, b, t - d) < Level(l, b, t - d) <= l.capacity by { hide Refill; }
    hide Refill, Wait, Level, MemoryLevel, ScriptAnswers, MemoryAnswers, ScriptState, MemoryState;
    var rest := FewerTokensShow(l, b, b, t - d, d);
    FirstIsFull(l, t);
    AnswersAfter(l, None, None, t, rest);
    nows := [t] + rest;
    assert nows[1..] == rest;
    BacksOn(t, rest, d);
  }

  lemma FirstIsFull(l: Limits, t: real)
    requires ValidLimits(l)
    ensures ScriptState(l, None, Ask(t, 1.0)) == Bucket(l.capacity - 1.0, t)
    ensures MemoryState(l, None, t) == Some(Bucket(l.capacity - 1.0, t))
  {
  }

  lemma BacksOn(t: real, nows: seq<real>, d: real)
    requires BackFrom(t - d, nows, d) && nows != [] && nows[0] == t - d
    ensures BackFrom(t, nows, d)
  {
  }

  /** The two buckets answer all callers alike exactly when the clock never goes back at all. */
  lemma BucketsAgreeExactlyWhen(l: Limits, d: real)
    requires ValidLimits(l) && d >= 0.0
    ensures (forall nows :: BackBy(nows, d) ==> ScriptAnswers(l, None, nows) == MemoryAnswers(l, None, nows)) <==>
      d == 0.0
  {
    hide Refill, Wait, BackFrom, ScriptAnswers, MemoryAnswers;
    if d > 0.0 {
      var nows := AnyStepBackSeparates(l, 0.0, d);
    } else {
      forall nows | BackBy(nows, d) ensures ScriptAnswers(l, None, nows) == MemoryAnswers(l, None, nows) {
        if nows != [] {
          NeverBackIsRising(nows[0], nows[1..]);
          assert [nows[0]] + nows[1..] == nows;
        }
        BucketsAgree(l, None, None, nows);
      }
    }
  }

  lemma {:induction false} NeverBackIsRising(from: real, nows: seq<real>)
    requires BackFrom(from, nows, 0.0)
    ensures Rising([from] + nows)
    decreases |nows|
  {
    if nows != [] {
      NeverBackIsRising(nows[0], nows[1..]);
      assert [nows[0]] + nows[1..] == nows;
      var all := [from] + nows;
      forall i, j | 0 <= i < j < |all| ensures all[i] <= all[j] {
        assert all[j] == nows[j - 1] && nows[0] <= nows[j - 1];
      }
    }
  }

  lemma RisingIsBounded(l: Limits, nows: seq<real>)
    requires ValidLimits(l) && Rising(nows)
    ensures SimpleBound(l, nows)
  {
    hide Refill, Wait;
    if nows != [] {
      AdmittedInWindow(l, None, None, nows);
    }
  }

  // ---------------------------------------------------------------------- expiry

  function Ceil(x: real): int {
    if x.Floor as real == x then x.Floor else x.Floor + 1
  }

  /** Seconds after which an idle key is dropped. */
  function Ttl(l: Limits): int
    requires ValidLimits(l)
  {
    Ceil(Wait(l, l.capacity)) + 1
  }

  /** A hash and the server time at which it expires. */
  datatype Entry = Entry(bucket: Bucket, deadline: real)

  function Live(e: Option<Entry>, serverNow: real): Option<Bucket> {
    if e.Some? && serverNow < e.value.deadline then Some(e.value.bucket) else None
  }

  /** A call with the caller's clock, which the script is given, and the server's, which expiry goes by. */
  datatype Timed = Timed(ask: Ask, serverNow: real)

  /** Every call writes the hash and pushes its expiry out. */
  function Written(l: Limits, e: Option<Entry>, call: Timed): Entry
    requires ValidLimits(l)
  {
    Entry(ScriptState(l, Live(e, call.serverNow), call.ask), call.serverNow + Ttl(l) as real)
  }

  function ExpiringAnswers(l: Limits, e: Option<Entry>, calls: seq<Timed>): (answers: seq<Answer>)
    requires ValidLimits(l)
    ensures |answers| == |calls|
    decreases |calls|
  {
    if calls == [] then []
    else [ScriptAnswer(l, Live(e, calls[0].serverNow), calls[0].ask)] +
         ExpiringAnswers(l, Some(Written(l, e, calls[0])), calls[1..])
  }

  /** The same calls on a store that never drops a key. */
  function LastingAnswers(l: Limits, s: Option<Bucket>, calls: seq<Timed>): (answers: seq<Answer>)
    requires ValidLimits(l)
    ensures |answers| == |calls|
    decreases |calls|
  {
    if calls == [] then []
    else [ScriptAnswer(l, s, calls[0].ask)] + LastingAnswers(l, Some(ScriptState(l, s, calls[0].ask)), calls[1..])
  }

  /** The callers' clocks lag the server's by `lag` at least and by `band` more at most. */
  ghost predicate LagWithin(calls: seq<Timed>, lag: real, band: real) {
    forall i :: 0 <= i < |calls| ==> lag <= calls[i].serverNow - calls[i].ask.now <= lag + band
  }

  /** How much longer a key lives than its bucket takes to fill: between one and two seconds. */
  function Slack(l: Limits): real
    requires ValidLimits(l)
  {
    Ttl(l) as real - Wait(l, l.capacity)
  }

  lemma SlackIsOneToTwo(l: Limits)
    requires ValidLimits(l)
    ensures 1.0 <= Slack(l) < 2.0
  {
    hide Wait;
  }

  /** The entry's expiry was set by a call whose caller lagged at least that much. */
  predicate Stamped(l: Limits, e: Option<Entry>, lag: real)
    requires ValidLimits(l)
  {
    e.Some? ==> InRange(l, Some(e.value.bucket)) && e.value.bucket.ts + lag + Ttl(l) as real <= e.value.deadline
  }

  /** A bucket left alone for its whole refill time is full. */
  lemma IdleIsFull(l: Limits, b: Bucket, now: real)
    requires ValidLimits(l) && b.tokens >= 0.0 && now - b.ts >= Wait(l, l.capacity)
    ensures Level(l, Some(b), now) == l.capacity
  {
    WaitIsPositive(l, l.capacity);
    WaitRefills(l, l.capacity);
    RefillGrows(l, Wait(l, l.capacity), now - b.ts);
    hide Refill, Wait;
  }

  function BucketIn(e: Option<Entry>): Option<Bucket> {
    if e.Some? then Some(e.value.bucket) else None
  }

  /**
   Dropping idle keys is unobservable: same decisions, same waits, for every sequence of calls whose
   lags differ by no more than the slack.
   */
  lemma {:induction false} ExpiryUnobservable(l: Limits, e: Option<Entry>, calls: seq<Timed>, lag: real, band: real)
    requires ValidLimits(l) && LagWithin(calls, lag, band) && band <= Slack(l) && Stamped(l, e, lag)
    requires forall i :: 0 <= i < |calls| ==> calls[i].ask.want >= 0.0
    ensures ExpiringAnswers(l, e, calls) == LastingAnswers(l, BucketIn(e), calls)
    decreases |calls|
  {
    hide Refill, Wait, Ttl;
    if calls != [] {
      var s, live := BucketIn(e), Live(e, calls[0].serverNow);
      if s != live {
        IdleIsFull(l, s.value, calls[0].ask.now);
      }
      assert Level(l, live, calls[0].ask.now) == Level(l, s, calls[0].ask.now);
      StaysInRange(l, s, calls[0].ask);
      ExpiryUnobservable(l, Some(Written(l, e, calls[0])), calls[1..], lag, band);
    }
  }

  // ------------------------------------------------------------ lags beyond the slack

  /** Calls for one token each, as the limiter makes them. */
  ghost predicate Single(calls: seq<Timed>) {
    forall i :: 0 <= i < |calls| ==> calls[i].ask.want == 1.0
  }

  /** The server's clock never goes back. */
  ghost predicate ServerRises(calls: seq<Timed>) {
    forall i, j :: 0 <= i < j < |calls| ==> calls[i].serverNow <= calls[j].serverNow
  }

  /** The expiring and the lasting store answer these calls, all made from `from` on, differently. */
  ghost predicate TellsApart(l: Limits, e: Option<Entry>, s: Option<Bucket>, calls: seq<Timed>, lag: real, band: real,
                             from: real)
    requires ValidLimits(l)
  {
    && Single(calls) && LagWithin(calls, lag, band)
    && ServerRises(calls) && (forall i :: 0 <= i < |calls| ==> from <= calls[i].serverNow)
    && ExpiringAnswers(l, e, calls) != LastingAnswers(l, s, calls)
  }

  lemma CallFirst(l: Limits, e: Option<Entry>, s: Option<Bucket>, call: Timed, rest: seq<Timed>, lag: real, band: real,
                  from: real)
    requires from <= call.serverNow
    requires ValidLimits(l) && call.ask.want == 1.0 && lag <= call.serverNow - call.ask.now <= lag + band
    requires TellsApart(l, Some(Written(l, e, call)), Some(ScriptState(l, s, call.ask)), rest, lag, band,
                        call.serverNow)
    ensures TellsApart(l, e, s, [call] + rest, lag, band, from)
  {
    hide Refill, Wait, Ttl;
    var calls := [call] + rest;
    assert calls[1..] == rest;
    assert forall i :: 0 < i < |calls| ==> calls[i] == rest[i - 1];
    assert ExpiringAnswers(l, e, calls)[1..] == ExpiringAnswers(l, Some(Written(l, e, call)), rest);
    assert LastingAnswers(l, s, calls)[1..] == LastingAnswers(l, Some(ScriptState(l, s, call.ask)), rest);
  }

  /** At one instant, unequal levels are told apart by asking until one of them denies. */
  lemma {:induction false} UnequalLevelsShow(l: Limits, e: Option<Entry>, s: Option<Bucket>, t: real, serverNow: real,
                                             lag: real, band: real)
    returns (calls: seq<Timed>)
    requires ValidLimits(l) && lag <= serverNow - t <= lag + band
    requires 0.0 <= Level(l, s, t) < Level(l, Live(e, serverNow), t) <= l.capacity
    ensures TellsApart(l, e, s, calls, lag, band, serverNow)
    decreases Level(l, s, t).Floor
  {
    var call := Timed(Ask(t, 1.0), serverNow);
    var x, y := Level(l, Live(e, serverNow), t), Level(l, s, t);
    RefillGrows(l, 0.0, 0.0);
    hide Refill, Wait;
    if y >= 1.0 {
      SlackIsOneToTwo(l);
      WaitIsPositive(l, l.capacity);
      var rest := UnequalLevelsShow(l, Some(Written(l, e, call)), Some(ScriptState(l, s, call.ask)), t, serverNow,
                                    lag, band);
      CallFirst(l, e, s, call, rest, lag, band, serverNow);
      calls := [call] + rest;
    } else {
      calls := [call];
      WaitsDiffer(l, x, y);
      assert ExpiringAnswers(l, e, calls)[0] == AnswerAt(l, x, 1.0) &&
        LastingAnswers(l, s, calls)[0] == AnswerAt(l, y, 1.0);
    }
  }

  /** An empty bucket, asked for once its key has expired but before it is full. */
  lemma EmptyBucketShows(l: Limits, ts: real, lag: real, band: real) returns (calls: seq<Timed>)
    requires ValidLimits(l) && band > Slack(l)
    ensures var e := Entry(Bucket(0.0, ts), ts + lag + Ttl(l) as real);
      TellsApart(l, Some(e), Some(e.bucket), calls, lag, band, ts + lag)
  {
    var e := Entry(Bucket(0.0, ts), ts + lag + Ttl(l) as real);
    var serverNow := e.deadline;
    var t := serverNow - lag - band;
    SlackIsOneToTwo(l);
    WaitIsPositive(l, l.capacity);
    WaitRefills(l, l.capacity);
    RefillLess(l, Max(0.0, t - ts), Wait(l, l.capacity));
    RefillGrows(l, 0.0, Max(0.0, t - ts));
    hide Refill, Wait;
    calls := UnequalLevelsShow(l, Some(e), Some(e.bucket), t, serverNow, lag, band);
  }

  /** From any bucket, single calls empty it exactly, and then the expiry shows. */
  lemma {:induction false} EmptiedBucketShows(l: Limits, b: Bucket, lag: real, band: real) returns (calls: seq<Timed>)
    requires ValidLimits(l) && band > Slack(l) && 0.0 <= b.tokens <= l.capacity
    ensures var e := Entry(b, b.ts + lag + Ttl(l) as real);
      TellsApart(l, Some(e), Some(b), calls, lag, band, b.ts + lag)
    decreases if b.tokens == 0.0 then 0 else b.tokens.Floor + 1
  {
    var e := Entry(b, b.ts + lag + Ttl(l) as real);
    SlackIsOneToTwo(l);
    if b.tokens == 0.0 {
      calls := EmptyBucketShows(l, b.ts, lag, band);
    } else {
      // Wait for a whole token if there is none, and take it.
      var pause := if b.tokens >= 1.0 then 0.0 else Wait(l, 1.0 - b.tokens);
      var t := b.ts + pause;
      var call := Timed(Ask(t, 1.0), t + lag);
      PauseIsShort(l, b.tokens, pause);
      hide Refill, Wait;
      var taken := Bucket(Level(l, Some(b), t) - 1.0, t);
      var rest := EmptiedBucketShows(l, taken, lag, band);
      CallFirst(l, Some(e), Some(b), call, rest, lag, band, b.ts + lag);
      calls := [call] + rest;
    }
  }

  lemma PauseIsShort(l: Limits, tokens: real, pause: real)
    requires ValidLimits(l) && 0.0 < tokens <= l.capacity
    requires pause == if tokens >= 1.0 then 0.0 else Wait(l, 1.0 - tokens)
    ensures 0.0 <= pause < Ttl(l) as real
    ensures Min(l.capacity, tokens + Refill(l, pause)) == if tokens >= 1.0 then tokens else 1.0
  {
    RefillGrows(l, 0.0, 0.0);
    SlackIsOneToTwo(l);
    if tokens < 1.0 {
      WaitIsPositive(l, 1.0 - tokens);
      WaitRefills(l, 1.0 - tokens);
      WaitIsPositive(l, l.capacity - (1.0 - tokens));
      WaitAdds(l, 1.0 - tokens, l.capacity - (1.0 - tokens));
    } else {
      WaitIsPositive(l, l.capacity);
    }
    hide Refill, Wait;
  }

  lemma WaitAdds(l: Limits, a: real, b: real)
    requires ValidLimits(l)
    ensures Wait(l, a + b) == Wait(l, a) + Wait(l, b)
  {
  }

  /** With any more lag than the slack, single calls from a new identity on tell the stores apart, for every bucket. */
  lemma MoreLagShows(l: Limits, lag: real, band: real, t: real) returns (calls: seq<Timed>)
    requires ValidLimits(l) && band > Slack(l)
    ensures TellsApart(l, None, None, calls, lag, band, t + lag)
  {
    var call := Timed(Ask(t, 1.0), t + lag);
    SlackIsOneToTwo(l);
    var rest := EmptiedBucketShows(l, Bucket(l.capacity - 1.0, t), lag, band);
    hide Refill, Wait, Ttl;
    CallFirst(l, None, None, call, rest, lag, band, t + lag);
    calls := [call] + rest;
  }

  /** Expiry is unobservable exactly when the callers' lags differ by no more than the slack. */
  lemma ExpiryUnobservableExactlyWhen(l: Limits, lag: real, band: real)
    requires ValidLimits(l)
    ensures band <= Slack(l) <==>
      forall calls :: Single(calls) && LagWithin(calls, lag, band) && ServerRises(calls) ==>
        ExpiringAnswers(l, None, calls) == LastingAnswers(l, None, calls)
  {
    if band > Slack(l) {
      var calls := MoreLagShows(l, lag, band, 0.0);
    } else {
      forall calls | Single(calls) && LagWithin(calls, lag, band) && ServerRises(calls)
        ensures ExpiringAnswers(l, None, calls) == LastingAnswers(l, None, calls)
      {
        ExpiryUnobservable(l, None, calls, lag, band);
      }
    }
  }

  // -------------------------------------------------------------------- services

  /**
   What one run of the script comes to, in numbers: a live hash is refilled up to the capacity, anything else
   starts full; a call that finds enough takes it, any other is told when there will be; and the key
   lives on for the whole seconds a refill takes, and one more.
   */
  ghost predicate ScriptSays(l: Limits, e: Option<Entry>, now: real, want: real, serverNow: real, allowed: bool,
                             retryAfter: real, e': Entry)
    requires ValidLimits(l)
  {
    var kept := e.Some? && serverNow < e.value.deadline;
    var idle := if kept && now > e.value.bucket.ts then now - e.value.bucket.ts else 0.0;
    var tokens := if kept then e.value.bucket.tokens + idle * l.refill else l.capacity;
    var level := if tokens <= l.capacity then tokens else l.capacity;
    var life := e'.deadline - serverNow;
    && (allowed <==> level >= want)
    && retryAfter == (if allowed then 0.0 else (want - level) / l.refill)
    && e'.bucket == Bucket(if allowed then level - want else level, now)
    && life.Floor as real == life && l.capacity / l.refill + 1.0 <= life < l.capacity / l.refill + 2.0
  }

  lemma ScriptMeans(l: Limits, e: Option<Entry>, now: real, want: real, serverNow: real)
    requires ValidLimits(l)
    ensures var answer := ScriptAnswer(l, Live(e, serverNow), Ask(now, want));
      ScriptSays(l, e, now, want, serverNow, answer.allowed, answer.wait,
                 Written(l, e, Timed(Ask(now, want), serverNow)))
  {
    var time := if e.Some? then Max(0.0, now - e.value.bucket.ts) else 0.0;
    assert Refill(l, time) == time * l.refill;
    assert Wait(l, l.capacity) == l.capacity / l.refill;
    hide Refill;
    assert Written(l, e, Timed(Ask(now, want), serverNow)).deadline - serverNow == Ttl(l) as real;
  }

  /**
   The dictionary's, likewise: no lower limit on the time that has passed, one token a call, and nothing is written
   on a denial, whose wait is rounded up to whole seconds.
   */
  ghost predicate MemorySays(l: Limits, b: Option<Bucket>, now: real, raised: Option<int>, b': Option<Bucket>)
    requires ValidLimits(l)
  {
    var tokens := if b.Some? then b.value.tokens + (now - b.value.ts) * l.refill else l.capacity;
    var level := if tokens <= l.capacity then tokens else l.capacity;
    if level >= 1.0 then raised == None && b' == Some(Bucket(level - 1.0, now))
    else
      && b' == b && raised.Some?
      && (raised.value - 1) as real <= (1.0 - level) / l.refill < raised.value as real
  }

  lemma MemoryMeans(l: Limits, b: Option<Bucket>, now: real)
    requires ValidLimits(l)
    ensures var answer := MemoryAnswer(l, b, now);
      MemorySays(l, b, now, if answer.allowed then None else Some(RetryAfter(answer.wait)), MemoryState(l, b, now))
  {
    var tokens := if b.Some? then b.value.tokens + (now - b.value.ts) * l.refill else l.capacity;
    var level := if tokens <= l.capacity then tokens else l.capacity;
    assert level == MemoryLevel(l, b, now);
    var wait := (1.0 - level) / l.refill;
    assert MemoryAnswer(l, b, now) == if level >= 1.0 then Answer(true, 0.0) else Answer(false, wait);
    assert (RetryAfter(wait) - 1) as real <= wait < RetryAfter(wait) as real;
  }

  /** The gateway's limiter over its Redis: one hash and one expiry per identity. */
  class RedisLimiter {
    var hashes: map<string, Bucket>
    var deadlines: map<string, real>

    constructor ()
      ensures hashes == map[] && deadlines == map[]
    {
      hashes, deadlines := map[], map[];
    }

    function EntryAt(key: string): Option<Entry>
      reads this
    {
      if key in hashes && key in deadlines then Some(Entry(hashes[key], deadlines[key])) else None
    }

    /** The script, in one atomic step on the server. */
    method RunScript(key: string, l: Limits, now: real, want: real, serverNow: real)
      returns (allowed: bool, retryAfter: real)
      requires ValidLimits(l)
      modifies this
      ensures Answer(allowed, retryAfter) == ScriptAnswer(l, Live(old(EntryAt(key)), serverNow), Ask(now, want))
      ensures EntryAt(key) == Some(Written(l, old(EntryAt(key)), Timed(Ask(now, want), serverNow)))
      ensures ScriptSays(l, old(EntryAt(key)), now, want, serverNow, allowed, retryAfter, EntryAt(key).value)
      ensures forall k :: k != key ==> EntryAt(k) == old(EntryAt(k))
    {
      ScriptMeans(l, EntryAt(key), now, want, serverNow);
      hide ScriptSays;
      var tokens, ts;
      if key in hashes && key in deadlines && serverNow < deadlines[key] {
        tokens, ts := hashes[key].tokens, hashes[key].ts;
      } else {
        tokens, ts := l.capacity, now;
      }
      RefillGrows(l, 0.0, 0.0);
      hide Refill;
      tokens := Min(l.capacity, tokens + Refill(l, Max(0.0, now - ts)));
      assert tokens == Level(l, Live(old(EntryAt(key)), serverNow), now);
      allowed, retryAfter := false, 0.0;
      if tokens >= want {
        tokens := tokens - want;
        allowed := true;
      } else {
        retryAfter := Wait(l, want - tokens);
      }
      hashes := hashes[key := Bucket(tokens, now)];
      deadlines := deadlines[key := serverNow + Ttl(l) as real];
    }

    /** Spend one token for an identity; no other identity's bucket is touched. */
    method Check(identity: string, l: Limits, now: real, serverNow: real) returns (allowed: bool, retryAfter: real)
      requires ValidLimits(l)
      modifies this
      ensures Answer(allowed, retryAfter) ==
        ScriptAnswer(l, Live(old(EntryAt("rl:" + identity)), serverNow), Ask(now, 1.0))
      ensures EntryAt("rl:" + identity) ==
        Some(Written(l, old(EntryAt("rl:" + identity)), Timed(Ask(now, 1.0), serverNow)))
      ensures EntryAt("rl:" + identity).Some? && ScriptSays(l, old(EntryAt("rl:" + identity)), now, 1.0, serverNow,
                                                            allowed, retryAfter, EntryAt("rl:" + identity).value)
      ensures forall other: string :: other != identity ==> EntryAt("rl:" + other) == old(EntryAt("rl:" + other))
      ensures forall k :: k != "rl:" + identity ==> EntryAt(k) == old(EntryAt(k))
    {
      hide ScriptSays;
      forall other: string | other != identity ensures "rl:" + other != "rl:" + identity {
        assert ("rl:" + other)[3..] == other && ("rl:" + identity)[3..] == identity;
      }
      allowed, retryAfter := RunScript("rl:" + identity, l, now, 1.0, serverNow);
    }
  }

  /** The AI service's limiter: a dictionary of buckets in one process. */
  class MemoryLimiter {
    var buckets: map<string, Bucket>

    constructor ()
      ensures buckets == map[]
    {
      buckets := map[];
    }

    function BucketOf(tenant: string): Option<Bucket>
      reads this
    {
      if tenant in buckets then Some(buckets[tenant]) else None
    }

    /** Raises with a Retry-After, or spends one token. */
    method CheckRateLimit(tenant: string, l: Limits, now: real) returns (raised: Option<int>)
      requires ValidLimits(l)
      modifies this
      ensures raised.None? <==> MemoryAnswer(l, old(BucketOf(tenant)), now).allowed
      ensures raised.Some? ==> raised.value == RetryAfter(MemoryAnswer(l, old(BucketOf(tenant)), now).wait)
      ensures BucketOf(tenant) == MemoryState(l, old(BucketOf(tenant)), now)
      ensures MemorySays(l, old(BucketOf(tenant)), now, raised, BucketOf(tenant))
      ensures forall other :: other != tenant ==> BucketOf(other) == old(BucketOf(other))
    {
      MemoryMeans(l, BucketOf(tenant), now);
      hide MemorySays;
      var tokens, ts := l.capacity, now;
      if tenant in buckets {
        tokens, ts := buckets[tenant].tokens, buckets[tenant].ts;
      }
      RefillGrows(l, 0.0, 0.0);
      hide Refill;
      tokens := Min(l.capacity, tokens + Refill(l, now - ts));
      assert tokens == MemoryLevel(l, old(BucketOf(tenant)), now);
      if tokens < 1.0 {
        return Some(RetryAfter(Wait(l, 1.0 - tokens)));
      }
      buckets := buckets[tenant := Bucket(tokens - 1.0, now)];
      raised := None;
    }
  }
}
