/** When every hit is fresh: exactly when requests take turns and no success of a write is lost. */
module CacheFreshness {
  import opened CacheAside

  /** The requests in flight. */
  function Flying(s: Proxy): set<nat> {
    set id | id in s.requests && InFlight(s.requests[id].stage)
  }

  /** At most `m` requests are in flight at any time, and successes of writes get lost only if `loses`. */
  ghost predicate Calm(s: Proxy, run: seq<Step>, m: nat, loses: bool)
    requires ProxyInv(s) && IsRun(s, run)
    decreases |run|
  {
    && |Flying(s)| <= m
    && (run == [] ||
        (&& (run[0].Lose? ==> loses)
         && (StepKeepsProxy(s, run[0]); Calm(After(s, run[0]), run[1..], m, loses))))
  }

  /** Such a run from the empty proxy leads here. */
  ghost predicate Gets(s: Proxy, m: nat, loses: bool) {
    exists run :: IsRun(Start(s.ttl), run) && Calm(Start(s.ttl), run, m, loses) && Exec(Start(s.ttl), run) == s
  }

  /** What a lookup finds, if anything, misses no write the backend has applied. */
  ghost predicate FreshLookup(s: Proxy, id: nat) {
    Can(s, Lookup(id)) && IsLive(s, ReadKey(s.requests[id])) ==>
      s.store[ReadKey(s.requests[id])].source < |s.answers| && !WouldBeStale(s, ReadKey(s.requests[id]))
  }

  // ----------------------------------------------------------------------- in turns

  lemma {:induction false} CalmTakesTurns(s: Proxy, run: seq<Step>, m: nat, loses: bool)
    requires ProxyInv(s) && IsRun(s, run) && Calm(s, run, m, loses) && m <= 1
    ensures TakesTurns(s, run)
    ensures !loses ==> Exec(s, run).lost == s.lost
    ensures |Flying(Exec(s, run))| <= m
    decreases |run|
  {
    if run != [] {
      StepKeepsProxy(s, run[0]);
      if run[0].Begin? {
        BeginsAlone(s, run[0], m);
      }
      assert !run[0].Lose? ==> After(s, run[0]).lost == s.lost;
      hide Can, After, ProxyInv, InFlight;
      CalmTakesTurns(After(s, run[0]), run[1..], m, loses);
    }
  }

  lemma BeginsAlone(s: Proxy, a: Step, m: nat)
    requires AllCoherent(s) && Can(s, a) && a.Begin? && |Flying(After(s, a))| <= m <= 1
    ensures forall id :: id in s.requests ==> !InFlight(s.requests[id].stage)
  {
    var s' := After(s, a);
    forall id | id in s.requests ensures !InFlight(s.requests[id].stage) {
      if InFlight(s.requests[id].stage) {
        assert {id, a.id} <= Flying(s');
        TwoAreMore(Flying(s'), id, a.id);
      }
    }
  }

  lemma TwoAreMore(x: set<nat>, a: nat, b: nat)
    requires a in x && b in x && a != b
    ensures |x| >= 2
  {
    assert x == {a, b} + (x - {a, b});
  }

  lemma TurnsAreFresh(s: Proxy, id: nat, m: nat)
    requires Gets(s, m, false) && m <= 1
    ensures FreshLookup(s, id)
  {
    var start := Start(s.ttl);
    var run :| IsRun(start, run) && Calm(start, run, m, false) && Exec(start, run) == s;
    CalmTakesTurns(start, run, m, false);
    if Can(s, Lookup(id)) && IsLive(s, ReadKey(s.requests[id])) {
      SequentialHitsAreFresh(s.ttl, run, id);
    }
  }

  /** With nobody in flight there is no lookup. */
  lemma NobodyLooks(s: Proxy, id: nat, loses: bool)
    requires Gets(s, 0, loses)
    ensures FreshLookup(s, id)
  {
    var start := Start(s.ttl);
    var run :| IsRun(start, run) && Calm(start, run, 0, loses) && Exec(start, run) == s;
    CalmTakesTurns(start, run, 0, loses);
    if Can(s, Lookup(id)) {
      LookerFlies(s, id);
      assert false;
    }
  }

  lemma LookerFlies(s: Proxy, id: nat)
    requires Can(s, Lookup(id))
    ensures Flying(s) != {}
  {
    assert id in Flying(s);
  }

  /** Without a lifetime nothing is ever found. */
  lemma NothingLives(s: Proxy, id: nat, m: nat, loses: bool)
    requires Gets(s, m, loses) && s.ttl <= 0.0
    ensures FreshLookup(s, id)
  {
    var start := Start(s.ttl);
    var run :| IsRun(start, run) && Calm(start, run, m, loses) && Exec(start, run) == s;
    if Can(s, Lookup(id)) && IsLive(s, ReadKey(s.requests[id])) {
      LivesForAWhile(s, ReadKey(s.requests[id]));
      assert false;
    }
  }

  lemma LivesForAWhile(s: Proxy, key: string)
    requires ProxyInv(s) && IsLive(s, key)
    ensures s.ttl > 0.0
  {
    assert EntryTrue(s, key, s.store[key]);
  }

  // ---------------------------------------------------------------- two ways to be stale

  lemma {:induction false} CalmThen(s: Proxy, run: seq<Step>, a: Step, m: nat, loses: bool)
    requires ProxyInv(s) && IsRun(s, run) && Calm(s, run, m, loses) && Can(Exec(s, run), a)
    requires |Flying(After(Exec(s, run), a))| <= m && (a.Lose? ==> loses)
    ensures IsRun(s, run + [a]) && Calm(s, run + [a], m, loses)
    ensures Exec(s, run + [a]) == After(Exec(s, run), a)
    decreases |run|
  {
    hide Can, After, InFlight;
    if run == [] {
      OneStep(s, a);
      assert run + [a] == [a] && [a][1..] == [];
    } else {
      StepKeepsProxy(s, run[0]);
      CalmThen(After(s, run[0]), run[1..], a, m, loses);
      assert (run + [a])[1..] == run[1..] + [a];
    }
  }

  lemma GetsInv(s: Proxy, m: nat, loses: bool)
    requires Gets(s, m, loses)
    ensures ProxyInv(s)
  {
  }

  lemma GetsStep(s: Proxy, a: Step, m: nat, loses: bool)
    requires Gets(s, m, loses) && ProxyInv(s) && Can(s, a) && |Flying(After(s, a))| <= m && (a.Lose? ==> loses)
    ensures Gets(After(s, a), m, loses) && ProxyInv(After(s, a))
  {
    hide Can, After, Flying;
    var start := Start(s.ttl);
    var run :| IsRun(start, run) && Calm(start, run, m, loses) && Exec(start, run) == s;
    CalmThen(start, run, a, m, loses);
    StepKeepsProxy(s, a);
  }

  function Begun(s: Proxy, id: nat, kind: Kind): Proxy {
    s.(requests := s.requests[id := Request("tenant", kind, Arrived)])
  }

  lemma BeginEffect(s: Proxy, id: nat, kind: Kind)
    requires ProxyInv(s) && id !in s.requests && PlainRoute(kind)
    ensures Can(s, Begin(id, "tenant", kind)) && After(s, Begin(id, "tenant", kind)) == Begun(s, id, kind)
    ensures Flying(Begun(s, id, kind)) == Flying(s) + {id}
  {
    hide AllCoherent, EntriesTrue;
  }

  /** A request begins. */
  lemma BeginsNext(s: Proxy, id: nat, kind: Kind, m: nat, loses: bool) returns (s': Proxy)
    requires Gets(s, m, loses) && ProxyInv(s) && id !in s.requests && PlainRoute(kind) && |Flying(s)| < m
    ensures s' == Begun(s, id, kind) && Gets(s', m, loses) && ProxyInv(s') && Flying(s') == Flying(s) + {id}
  {
    hide Can, After, Flying, Gets;
    s' := Begun(s, id, kind);
    BeginEffect(s, id, kind);
    hide ProxyInv;
    GetsStep(s, Begin(id, "tenant", kind), m, loses);
  }

  /** A read that has found nothing, ... */
  function ReadMissed(ttl: real): Proxy {
    Start(ttl).(requests := map[0 := Request("tenant", Read("name"), Missed)])
  }

  /** ... and one that has its answer, and has not stored it. */
  function ReadAnswered(ttl: real): Proxy {
    Proxy(0.0, ttl, map[], [Answer("name", "tenant", 200, "body", 0.0, 0)], map[], {},
          map[0 := Request("tenant", Read("name"), Fetched(0))])
  }

  lemma ReadMisses(ttl: real, m: nat, loses: bool)
    requires m >= 1
    ensures Gets(ReadMissed(ttl), m, loses) && ProxyInv(ReadMissed(ttl))
  {
    var s0 := Start(ttl);
    assert Flying(s0) == {};
    assert IsRun(s0, []) && Calm(s0, [], m, loses) && Exec(s0, []) == s0;
    hide Gets;
    var s1 := BeginsNext(s0, 0, Read("name"), m, loses);
    assert After(s1, Lookup(0)) == ReadMissed(ttl);
    assert Flying(ReadMissed(ttl)) == {0};
    hide ProxyInv;
    GetsStep(s1, Lookup(0), m, loses);
  }

  lemma ReadIsAnswered(ttl: real, m: nat, loses: bool)
    requires m >= 1
    ensures Gets(ReadAnswered(ttl), m, loses) && ProxyInv(ReadAnswered(ttl)) && Flying(ReadAnswered(ttl)) == {0}
  {
    hide Gets;
    var s := ReadMissed(ttl);
    ReadMisses(ttl, m, loses);
    assert After(s, Fetch(0, 200, "body")) == ReadAnswered(ttl);
    assert Flying(ReadAnswered(ttl)) == {0};
    hide ProxyInv;
    GetsStep(s, Fetch(0, 200, "body"), m, loses);
  }

  /** A new read of what is cached stale. */
  lemma StaleRead(s: Proxy, m: nat, loses: bool) returns (s': Proxy)
    requires Gets(s, m, loses) && ProxyInv(s) && 2 !in s.requests && Flying(s) == {} && m >= 1
    requires var key := Key("name", "tenant");
      IsLive(s, key) && s.store[key].source < |s.answers| && WouldBeStale(s, key)
    ensures Gets(s', m, loses) && s'.ttl == s.ttl && !FreshLookup(s', 2)
  {
    hide Gets, ProxyInv;
    s' := BeginsNext(s, 2, Read("name"), m, loses);
  }

  /** A write comes, and goes, between a read's answer and its store. */
  lemma WriteComesBetween(ttl: real, m: nat, loses: bool) returns (s: Proxy)
    requires m >= 2
    ensures Gets(s, m, loses) && ProxyInv(s) && s.ttl == ttl
    ensures s.requests == map[0 := Request("tenant", Read("name"), Fetched(0)),
                              1 := Request("tenant", Write(["name"]), Done)]
    ensures 0 < |s.answers| && s.answers[0].version < WritesTo(s, Key("name", "tenant"))
  {
    hide Gets, ProxyInv, Key, Can, After, Flying, WritesTo;
    var s0 := ReadAnswered(ttl);
    ReadIsAnswered(ttl, m, loses);
    var s1 := BeginsNext(s0, 1, Write(["name"]), m, loses);
    var s2, s3 := WriteOvertakes(s1, 1, "name");
    WriteApplies(s1, 1, "name");
    AtMostTwo(s2);
    GetsStep(s1, Perform(1, 200), m, loses);
    AtMostTwo(s3);
    GetsStep(s2, Invalidate(1), m, loses);
    s := s3;
  }

  /** The read stores after all. */
  lemma StoresAfterAll(s: Proxy, m: nat, loses: bool) returns (s': Proxy)
    requires Gets(s, m, loses) && ProxyInv(s) && Can(s, Store(0))
    requires forall id :: id in s.requests && id != 0 ==> s.requests[id].stage == Done
    ensures s' == After(s, Store(0)) && Gets(s', m, loses) && ProxyInv(s') && Flying(s') == {}
    ensures s'.requests == s.requests[0 := s.requests[0].(stage := Done)] && s'.ttl == s.ttl
  {
    hide Gets;
    s' := After(s, Store(0));
    assert Flying(s') == {};
    hide ProxyInv;
    GetsStep(s, Store(0), m, loses);
  }

  /** Two requests in flight are enough: a write overtakes a read. */
  lemma OvertakenIsStale(ttl: real, m: nat, loses: bool) returns (s: Proxy)
    requires ttl > 0.0 && m >= 2
    ensures Gets(s, m, loses) && s.ttl == ttl && !FreshLookup(s, 2)
  {
    hide Gets, ProxyInv, Key, Can, After, Flying, WritesTo, FreshLookup;
    var s3 := WriteComesBetween(ttl, m, loses);
    OldBodyStored(s3, 0, 0);
    var s4 := StoresAfterAll(s3, m, loses);
    s := StaleRead(s4, m, loses);
  }

  lemma AtMostTwo(s: Proxy)
    requires s.requests.Keys == {0, 1}
    ensures |Flying(s)| <= 2
  {
    assert Flying(s) <= {0, 1};
    SubsetIsSmaller(Flying(s), {0, 1});
  }

  lemma SubsetIsSmaller(x: set<nat>, y: set<nat>)
    requires x <= y
    ensures |x| <= |y|
  {
    assert y == x + (y - x);
  }

  /** The read's answer is stored, and a write begins. */
  lemma WriteFollows(ttl: real, m: nat) returns (s: Proxy)
    requires ttl > 0.0 && m >= 1
    ensures Gets(s, m, true) && ProxyInv(s) && s.ttl == ttl && IsLive(s, Key("name", "tenant"))
    ensures s.requests == map[0 := Request("tenant", Read("name"), Done),
                              1 := Request("tenant", Write(["name"]), Arrived)]
  {
    hide Gets, Key, Flying;
    var s0 := ReadAnswered(ttl);
    ReadIsAnswered(ttl, m, true);
    var s1 := StoresAfterAll(s0, m, true);
    hide ProxyInv;
    s := BeginsNext(s1, 1, Write(["name"]), m, true);
  }

  /** One lost reply is enough, in turns. */
  lemma LostIsStale(ttl: real, m: nat) returns (s: Proxy)
    requires ttl > 0.0 && m >= 1
    ensures Gets(s, m, true) && s.ttl == ttl && !FreshLookup(s, 2)
  {
    hide Gets, Key, ProxyInv, FreshLookup;
    var s2 := WriteFollows(ttl, m);
    LostReplyStaysCached(s2, 1, "name");
    LoseEffect(s2, 1);
    hide Can, After;
    GetsStep(s2, Lose(1), m, true);
    s := StaleRead(After(s2, Lose(1)), m, true);
  }

  lemma LoseEffect(s: Proxy, w: nat)
    requires ProxyInv(s) && Can(s, Lose(w))
    requires forall id :: id in s.requests && id != w ==> s.requests[id].stage == Done
    ensures var s' := After(s, Lose(w));
      Flying(s') == {} && s'.requests.Keys == s.requests.Keys && s'.ttl == s.ttl
  {
    hide AllCoherent, EntriesTrue;
  }

  /**
   Fresh hits, exactly. With at most `m` requests in flight, no hit in any run predates a write the
   backend has applied to its data, exactly when requests take turns and no success of a write is
   lost; with none in flight or without a lifetime there are no hits.
   */
  lemma FreshExactlyWhen(ttl: real, m: nat, loses: bool)
    ensures (forall s, id :: Gets(s, m, loses) && s.ttl == ttl ==> FreshLookup(s, id)) <==>
      ttl <= 0.0 || m == 0 || (m == 1 && !loses)
  {
    hide Gets, FreshLookup;
    if ttl <= 0.0 || m == 0 || (m == 1 && !loses) {
      forall s, id | Gets(s, m, loses) && s.ttl == ttl ensures FreshLookup(s, id) {
        if ttl <= 0.0 {
          NothingLives(s, id, m, loses);
        } else if m == 0 {
          NobodyLooks(s, id, loses);
        } else {
          TurnsAreFresh(s, id, m);
        }
      }
    } else if m >= 2 {
      var s := OvertakenIsStale(ttl, m, loses);
    } else {
      var s := LostIsStale(ttl, m);
    }
  }
}
