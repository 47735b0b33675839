/**
 Cache-aside in the proxy, as a step machine. A read looks the cache up, fetches on a miss and
 stores; a write reaches the backend and then drops cached entries. Each of these is one step on
 Redis or one call to the backend, and the steps of any number of requests interleave.
 */
module CacheAside {

  // ------------------------------------------------------------------------- keys

  function Key(name: string, tenant: string): string {
    "cache:" + name + ":" + tenant
  }

  predicate Plain(name: string) {
    ':' !in name
  }

  /** The first colon comes right after a plain name. */
  lemma FirstColon(name: string, tenant: string)
    requires Plain(name)
    ensures var rest := name + ":" + tenant;
      && rest[|name|] == ':' && (forall i :: 0 <= i < |name| ==> rest[i] != ':')
      && rest[..|name|] == name && rest[|name| + 1..] == tenant
  {
    var rest := name + ":" + tenant;
    forall i | 0 <= i < |name| ensures rest[i] != ':' {
      assert rest[i] == name[i];
    }
  }

  /** Names without a colon and tenants of any shape never share a key. */
  lemma KeyInjective(name: string, tenant: string, name': string, tenant': string)
    requires Plain(name) && Plain(name') && Key(name, tenant) == Key(name', tenant')
    ensures name == name' && tenant == tenant'
  {
    FirstColon(name, tenant);
    FirstColon(name', tenant');
    assert Key(name, tenant)[6..] == name + ":" + tenant && Key(name', tenant')[6..] == name' + ":" + tenant';
  }

  /** With a colon in a name two tenants can meet. */
  lemma ColonsCollide(a: string, b: string, c: string)
    ensures Key(a, b + ":" + c) == Key(a + ":" + b, c)
  {
    assert a + ":" + (b + ":" + c) == (a + ":" + b) + ":" + c;
    assert "cache:" + a + ":" + (b + ":" + c) == "cache:" + (a + ":" + (b + ":" + c));
    assert "cache:" + (a + ":" + b) + ":" + c == "cache:" + ((a + ":" + b) + ":" + c);
  }

  /** Two tenants can meet under these names. */
  ghost predicate Meet(name: string, name': string) {
    exists tenant: string, tenant': string :: Key(name, tenant) == Key(name', tenant')
  }

  /** What two equal keys say of their names. */
  lemma EqualKeys(name: string, tenant: string, name': string, tenant': string)
    requires Key(name, tenant) == Key(name', tenant') && |name| <= |name'|
    ensures if name == name' then tenant == tenant' else name + ":" <= name'
  {
    KeyAfterPrefix(name, tenant);
    KeyAfterPrefix(name', tenant');
    var s, s' := name + ":" + tenant, name' + ":" + tenant';
    assert s[..|name|] == name && s'[..|name'|] == name' && s[|name|] == ':';
    if |name| == |name'| {
      assert s[|name| + 1..] == tenant && s'[|name'| + 1..] == tenant';
    } else {
      assert s'[..|name| + 1] == name'[..|name| + 1] && s[..|name| + 1] == name + ":";
    }
  }

  /** Two names share a key exactly when one is the other with a colon and more behind it; one alone never does. */
  lemma KeysMeetExactlyWhen(name: string, name': string)
    ensures name != name' ==> (Meet(name, name') <==> name + ":" <= name' || name' + ":" <= name)
    ensures forall tenant, tenant' :: Key(name, tenant) == Key(name, tenant') ==> tenant == tenant'
  {
    hide Key;
    forall tenant, tenant' | Key(name, tenant) == Key(name', tenant')
      ensures if name == name' then tenant == tenant' else name + ":" <= name' || name' + ":" <= name
    {
      if |name| <= |name'| {
        EqualKeys(name, tenant, name', tenant');
      } else {
        EqualKeys(name', tenant', name, tenant);
      }
    }
    forall tenant, tenant' | Key(name, tenant) == Key(name, tenant') ensures tenant == tenant' {
      EqualKeys(name, tenant, name, tenant');
    }
    if name + ":" <= name' {
      LongerNameMeets(name, name');
    } else if name' + ":" <= name {
      LongerNameMeets(name', name);
    }
  }

  lemma KeyAfterPrefix(name: string, tenant: string)
    ensures Key(name, tenant)[6..] == name + ":" + tenant
  {
  }

  lemma LongerNameMeets(name: string, longer: string)
    requires name + ":" <= longer
    ensures Key(name, longer[|name| + 1..] + ":") == Key(longer, "")
  {
    var b := longer[|name| + 1..];
    assert longer == name + ":" + b;
    ColonsCollide(name, b, "");
    assert b + ":" + "" == b + ":";
  }

  // ------------------------------------------------------------------------ state

  /** What the backend gave a read; `version` counts the writes to that data applied before it. */
  datatype Answer = Answer(name: string, tenant: string, status: int, body: string, at: real, version: nat)

  /** A cached body; the other fields are history. `source` is the answer it came from. */
  datatype Entry = Entry(body: string, deadline: real, storedAt: real, source: nat, storedStale: bool)

  datatype Kind = Read(name: string) | Write(invalidates: seq<string>)

  datatype Stage =
    | Arrived
    | Missed
    | Fetched(source: nat)
    | Invalidating(next: nat)
    | Hit(entry: Entry, at: real)
    | Done

  datatype Request = Request(tenant: string, kind: Kind, stage: Stage)

  datatype Proxy = Proxy(
    clock: real,
    ttl: real,
    store: map<string, Entry>,
    answers: seq<Answer>,
    writes: map<string, nat>,      // writes applied so far, by the cache key they make stale
    lost: set<string>,             // those keys for which a success never reached the gateway
    requests: map<nat, Request>)

  datatype Step =
    | Tick(time: real)
    | Begin(id: nat, tenant: string, kind: Kind)
    | Lookup(id: nat)
    | Fetch(id: nat, status: int, body: string)
    | Fail(id: nat)                 // breaker open, request error, or any other exception
    | Store(id: nat)
    | Perform(id: nat, status: int)
    | Lose(id: nat)                 // the backend applies the write, but its success never arrives
    | Invalidate(id: nat)

  function Start(ttl: real): Proxy {
    Proxy(0.0, ttl, map[], [], map[], {}, map[])
  }

  function WritesTo(s: Proxy, key: string): nat {
    if key in s.writes then s.writes[key] else 0
  }

  predicate IsLive(s: Proxy, key: string) {
    key in s.store && s.clock < s.store[key].deadline
  }

  function ReadKey(r: Request): string
    requires r.kind.Read?
  {
    Key(r.kind.name, r.tenant)
  }

  function KeysOf(names: seq<string>, tenant: string): set<string> {
    set n | n in names :: Key(n, tenant)
  }

  ghost predicate PlainRoute(kind: Kind) {
    match kind
    case Read(name) => Plain(name)
    case Write(names) => forall n :: n in names ==> Plain(n)
  }

  predicate AtStage(s: Proxy, id: nat, stage: Stage) {
    id in s.requests && s.requests[id].stage == stage
  }

  ghost predicate Can(s: Proxy, a: Step) {
    match a
    case Tick(time) => time >= 0.0
    case Begin(id, _, kind) => id !in s.requests && PlainRoute(kind)
    case Lookup(id) => AtStage(s, id, Arrived) && s.requests[id].kind.Read?
    case Fetch(id, _, _) => AtStage(s, id, Missed)
    case Fail(id) => AtStage(s, id, Missed) || (AtStage(s, id, Arrived) && s.requests[id].kind.Write?)
    case Store(id) => id in s.requests && s.requests[id].stage.Fetched?
    case Perform(id, _) => AtStage(s, id, Arrived) && s.requests[id].kind.Write?
    case Lose(id) => AtStage(s, id, Arrived) && s.requests[id].kind.Write?
    case Invalidate(id) => id in s.requests && s.requests[id].stage.Invalidating?
  }

  function MoveTo(s: Proxy, id: nat, stage: Stage): Proxy
    requires id in s.requests
  {
    s.(requests := s.requests[id := s.requests[id].(stage := stage)])
  }

  function Bump(s: Proxy, keys: set<string>): map<string, nat> {
    map k | k in s.writes.Keys + keys :: WritesTo(s, k) + if k in keys then 1 else 0
  }

  /** The stage after `n` of the names have been dropped. */
  function Dropping(names: seq<string>, n: nat): Stage {
    if n < |names| then Invalidating(n) else Done
  }

  function AnswerFor(s: Proxy, r: Request, status: int, body: string): Answer
    requires r.kind.Read?
  {
    Answer(r.kind.name, r.tenant, status, body, s.clock, WritesTo(s, ReadKey(r)))
  }

  function EntryFor(s: Proxy, key: string, source: nat): Entry
    requires source < |s.answers|
  {
    Entry(s.answers[source].body, s.clock + s.ttl, s.clock, source, s.answers[source].version != WritesTo(s, key))
  }

  /** What the machine's steps rely on about a request; every reachable state has it. */
  predicate Coherent(s: Proxy, r: Request) {
    match r.stage
    case Arrived => true
    case Missed => r.kind.Read?
    case Fetched(source) =>
      && r.kind.Read? && Plain(r.kind.name) && source < |s.answers|
      && var a := s.answers[source];
         a.status == 200 && a.name == r.kind.name && a.tenant == r.tenant && a.at <= s.clock &&
           a.version <= WritesTo(s, ReadKey(r))
    case Invalidating(n) => r.kind.Write? && n < |r.kind.invalidates|
    case Hit(e, at) => r.kind.Read? && HitSound(s, r, e, at)
    case Done => true
  }

  /** A body the backend gave with status 200 for this name and tenant, stored less than a TTL before. */
  predicate HitSound(s: Proxy, r: Request, e: Entry, at: real)
    requires r.kind.Read?
  {
    && e.source < |s.answers|
    && var a := s.answers[e.source];
       && a.status == 200 && a.body == e.body && a.name == r.kind.name && a.tenant == r.tenant
       && a.at <= e.storedAt <= at < e.storedAt + s.ttl
  }

  ghost predicate AllCoherent(s: Proxy) {
    forall id :: id in s.requests ==> Coherent(s, s.requests[id]) && PlainRoute(s.requests[id].kind)
  }

  function After(s: Proxy, a: Step): Proxy
    requires Can(s, a) && AllCoherent(s)
  {
    match a
    case Tick(time) => s.(clock := s.clock + time)
    case Begin(id, tenant, kind) => s.(requests := s.requests[id := Request(tenant, kind, Arrived)])
    case Lookup(id) =>
      var key := ReadKey(s.requests[id]);
      MoveTo(s, id, if IsLive(s, key) then Hit(s.store[key], s.clock) else Missed)
    case Fetch(id, status, body) =>
      assert Coherent(s, s.requests[id]);
      MoveTo(s, id, if status == 200 then Fetched(|s.answers|) else Done).(
        answers := s.answers + [AnswerFor(s, s.requests[id], status, body)])
    case Fail(id) => MoveTo(s, id, Done)
    case Store(id) =>
      assert Coherent(s, s.requests[id]);
      var key := ReadKey(s.requests[id]);
      MoveTo(s, id, Done).(store := s.store[key := EntryFor(s, key, s.requests[id].stage.source)])
    case Perform(id, status) =>
      var names := s.requests[id].kind.invalidates;
      if status < 400
      then MoveTo(s, id, Dropping(names, 0)).(writes := Bump(s, KeysOf(names, s.requests[id].tenant)))
      else MoveTo(s, id, Done)
    case Lose(id) =>
      var keys := KeysOf(s.requests[id].kind.invalidates, s.requests[id].tenant);
      MoveTo(s, id, Done).(writes := Bump(s, keys), lost := s.lost + keys)
    case Invalidate(id) =>
      assert Coherent(s, s.requests[id]);
      var r := s.requests[id];
      MoveTo(s, id, Dropping(r.kind.invalidates, r.stage.next + 1)).(
        store := s.store - {Key(r.kind.invalidates[r.stage.next], r.tenant)})
  }

  // -------------------------------------------------------------------- invariant

  /** A successful write has yet to drop the entry under `key`. */
  ghost predicate WriteUnfinished(s: Proxy, key: string) {
    exists id :: id in s.requests && StillDrops(s.requests[id], key)
  }

  ghost predicate StillDrops(r: Request, key: string) {
    && r.kind.Write? && r.stage.Invalidating?
    && exists m :: r.stage.next <= m < |r.kind.invalidates| && Key(r.kind.invalidates[m], r.tenant) == key
  }

  predicate EntryTrue(s: Proxy, key: string, e: Entry) {
    && e.source < |s.answers|
    && e.storedAt <= s.clock && e.deadline == e.storedAt + s.ttl
    && var a := s.answers[e.source];
       && Plain(a.name) && key == Key(a.name, a.tenant) && a.status == 200 && a.body == e.body
       && a.at <= e.storedAt && a.version <= WritesTo(s, key)
       && (e.storedStale ==> a.version < WritesTo(s, key))
  }

  /** An entry that misses a write was stored after that write, or the write has not dropped it yet, or never will. */
  ghost predicate Accounted(s: Proxy, key: string)
    requires key in s.store && s.store[key].source < |s.answers|
  {
    || s.answers[s.store[key].source].version == WritesTo(s, key)
    || s.store[key].storedStale || WriteUnfinished(s, key) || key in s.lost
  }

  ghost predicate EntriesTrue(s: Proxy) {
    forall key :: key in s.store ==> EntryTrue(s, key, s.store[key]) && Accounted(s, key)
  }

  ghost predicate ProxyInv(s: Proxy) {
    AllCoherent(s) && EntriesTrue(s)
  }

  /** Clock, answers and write counts only grow. */
  predicate Grows(s: Proxy, s': Proxy) {
    && s'.ttl == s.ttl && s.clock <= s'.clock && s.answers <= s'.answers && s.lost <= s'.lost
    && forall key :: key in s.writes ==> WritesTo(s, key) <= WritesTo(s', key)
  }

  lemma CoherentGrows(s: Proxy, s': Proxy, r: Request)
    requires Grows(s, s') && Coherent(s, r)
    ensures Coherent(s', r)
  {
  }

  /** Only the moving request needs a look. */
  lemma OthersCoherent(s: Proxy, s': Proxy, id: nat)
    requires AllCoherent(s) && Grows(s, s')
    requires forall o :: o in s'.requests && o != id ==> o in s.requests && s'.requests[o] == s.requests[o]
    requires id in s'.requests ==> Coherent(s', s'.requests[id]) && PlainRoute(s'.requests[id].kind)
    ensures AllCoherent(s')
  {
    hide Coherent, Grows, PlainRoute;
    forall o | o in s'.requests && o != id ensures Coherent(s', s'.requests[o]) {
      CoherentGrows(s, s', s.requests[o]);
    }
  }

  /** Whatever entry a lookup finds under its key came from an answer to the same name and tenant. */
  lemma LookupCoherent(s: Proxy, id: nat)
    requires ProxyInv(s) && Can(s, Lookup(id))
    ensures AllCoherent(After(s, Lookup(id))) && Grows(s, After(s, Lookup(id)))
  {
    var s', key := After(s, Lookup(id)), ReadKey(s.requests[id]);
    assert PlainRoute(s.requests[id].kind);
    if IsLive(s, key) {
      assert EntryTrue(s, key, s.store[key]);
      var found := s.answers[s.store[key].source];
      KeyInjective(found.name, found.tenant, s.requests[id].kind.name, s.requests[id].tenant);
    }
    OthersCoherent(s, s', id);
  }

  lemma FetchCoherent(s: Proxy, id: nat, status: int, body: string)
    requires ProxyInv(s) && Can(s, Fetch(id, status, body))
    ensures AllCoherent(After(s, Fetch(id, status, body))) && Grows(s, After(s, Fetch(id, status, body)))
  {
    var s' := After(s, Fetch(id, status, body));
    assert Coherent(s, s.requests[id]) && PlainRoute(s.requests[id].kind);
    OthersCoherent(s, s', id);
  }

  /** The steps of a write. */
  lemma WriteCoherent(s: Proxy, a: Step)
    requires ProxyInv(s) && Can(s, a) && (a.Perform? || a.Lose? || a.Invalidate?)
    ensures AllCoherent(After(s, a)) && Grows(s, After(s, a))
  {
    var s' := After(s, a);
    assert Coherent(s, s.requests[a.id]);
    OthersCoherent(s, s', a.id);
  }

  lemma PlainCoherent(s: Proxy, a: Step)
    requires ProxyInv(s) && Can(s, a) && (a.Begin? || a.Fail? || a.Store?)
    ensures AllCoherent(After(s, a)) && Grows(s, After(s, a))
  {
    OthersCoherent(s, After(s, a), a.id);
  }

  lemma TickCoherent(s: Proxy, time: real)
    requires ProxyInv(s) && Can(s, Tick(time))
    ensures AllCoherent(After(s, Tick(time))) && Grows(s, After(s, Tick(time)))
  {
    var s' := After(s, Tick(time));
    forall o | o in s'.requests ensures Coherent(s', s'.requests[o]) {
      CoherentGrows(s, s', s.requests[o]);
    }
  }

  lemma StepCoherent(s: Proxy, a: Step)
    requires ProxyInv(s) && Can(s, a)
    ensures AllCoherent(After(s, a)) && Grows(s, After(s, a))
  {
    hide Can, After, Grows, AllCoherent;
    match a
    case Tick(time) => TickCoherent(s, time);
    case Lookup(id) => LookupCoherent(s, id);
    case Fetch(id, status, body) => FetchCoherent(s, id, status, body);
    case Perform(_, _) => WriteCoherent(s, a);
    case Lose(_) => WriteCoherent(s, a);
    case Invalidate(_) => WriteCoherent(s, a);
    case _ => PlainCoherent(s, a);
  }

  /** Another request's unfinished write stays unfinished when only request `id` moves. */
  lemma UnfinishedKept(s: Proxy, s': Proxy, id: nat, key: string)
    requires WriteUnfinished(s, key)
    requires forall o :: o in s.requests && o != id ==> o in s'.requests && s'.requests[o] == s.requests[o]
    requires id in s.requests && StillDrops(s.requests[id], key) ==>
      id in s'.requests && StillDrops(s'.requests[id], key)
    ensures WriteUnfinished(s', key)
  {
    var o :| o in s.requests && StillDrops(s.requests[o], key);
    assert o in s'.requests && StillDrops(s'.requests[o], key);
  }

  /** Steps that leave the store and the write counts alone. */
  lemma QuietKeepsEntries(s: Proxy, a: Step)
    requires ProxyInv(s) && Can(s, a) && !a.Store? && !a.Perform? && !a.Lose? && !a.Invalidate?
    ensures EntriesTrue(After(s, a))
  {
    var s' := After(s, a);
    forall key | key in s'.store ensures EntryTrue(s', key, s'.store[key]) && Accounted(s', key) {
      assert EntryTrue(s, key, s.store[key]) && Accounted(s, key);
      if WriteUnfinished(s, key) {
        UnfinishedKept(s, s', if a.Tick? then 0 else a.id, key);
      }
    }
  }

  lemma StoreKeepsEntries(s: Proxy, id: nat)
    requires ProxyInv(s) && Can(s, Store(id))
    ensures EntriesTrue(After(s, Store(id)))
  {
    var s' := After(s, Store(id));
    assert Coherent(s, s.requests[id]);
    forall key | key in s'.store ensures EntryTrue(s', key, s'.store[key]) && Accounted(s', key) {
      if key != ReadKey(s.requests[id]) {
        assert EntryTrue(s, key, s.store[key]) && Accounted(s, key);
        if WriteUnfinished(s, key) {
          UnfinishedKept(s, s', id, key);
        }
      }
    }
  }

  /** A successful write leaves each entry it makes stale to its own invalidations. */
  lemma PerformAccounts(s: Proxy, id: nat, key: string)
    requires AllCoherent(s) && Can(s, Perform(id, 200))
    requires key in KeysOf(s.requests[id].kind.invalidates, s.requests[id].tenant)
    ensures WriteUnfinished(After(s, Perform(id, 200)), key)
  {
    var s', r := After(s, Perform(id, 200)), s.requests[id];
    var n :| n in r.kind.invalidates && Key(n, r.tenant) == key;
    var m :| 0 <= m < |r.kind.invalidates| && r.kind.invalidates[m] == n;
    assert id in s'.requests && StillDrops(s'.requests[id], key);
  }

  lemma PerformKeepsEntries(s: Proxy, id: nat, status: int)
    requires ProxyInv(s) && Can(s, Perform(id, status))
    ensures EntriesTrue(After(s, Perform(id, status)))
  {
    var s' := After(s, Perform(id, status));
    var keys := KeysOf(s.requests[id].kind.invalidates, s.requests[id].tenant);
    assert status < 400 ==> s' == After(s, Perform(id, 200));
    hide AllCoherent, KeysOf, StillDrops;
    forall key | key in s'.store ensures EntryTrue(s', key, s'.store[key]) && Accounted(s', key) {
      assert EntryTrue(s, key, s.store[key]) && Accounted(s, key);
      if status < 400 && key in keys {
        PerformAccounts(s, id, key);
      } else {
        assert WritesTo(s', key) == WritesTo(s, key);
        if WriteUnfinished(s, key) {
          ArrivedDropsNothing(s.requests[id], key);
          UnfinishedKept(s, s', id, key);
        }
      }
    }
  }

  lemma ArrivedDropsNothing(r: Request, key: string)
    requires r.stage.Arrived?
    ensures !StillDrops(r, key)
  {
  }

  lemma LoseKeepsEntries(s: Proxy, id: nat)
    requires ProxyInv(s) && Can(s, Lose(id))
    ensures EntriesTrue(After(s, Lose(id)))
  {
    var s' := After(s, Lose(id));
    forall key | key in s'.store ensures EntryTrue(s', key, s'.store[key]) && Accounted(s', key) {
      assert EntryTrue(s, key, s.store[key]) && Accounted(s, key);
      if WriteUnfinished(s, key) {
        UnfinishedKept(s, s', id, key);
      }
      assert key !in s'.lost ==> WritesTo(s', key) == WritesTo(s, key);
    }
  }

  lemma InvalidateKeepsEntries(s: Proxy, id: nat)
    requires ProxyInv(s) && Can(s, Invalidate(id))
    ensures EntriesTrue(After(s, Invalidate(id)))
  {
    var s' := After(s, Invalidate(id));
    var r := s.requests[id];
    assert Coherent(s, r);
    forall key | key in s'.store ensures EntryTrue(s', key, s'.store[key]) && Accounted(s', key) {
      assert EntryTrue(s, key, s.store[key]) && Accounted(s, key);
      if WriteUnfinished(s, key) {
        if StillDrops(r, key) {
          var m :| r.stage.next <= m < |r.kind.invalidates| && Key(r.kind.invalidates[m], r.tenant) == key;
          assert m != r.stage.next;
        }
        UnfinishedKept(s, s', id, key);
      }
    }
  }

  lemma StepKeepsProxy(s: Proxy, a: Step)
    requires ProxyInv(s) && Can(s, a)
    ensures ProxyInv(After(s, a)) && Grows(s, After(s, a))
  {
    StepCoherent(s, a);
    hide Can, After, Grows, AllCoherent, EntriesTrue;
    match a
    case Store(id) => StoreKeepsEntries(s, id);
    case Perform(id, status) => PerformKeepsEntries(s, id, status);
    case Lose(id) => LoseKeepsEntries(s, id);
    case Invalidate(id) => InvalidateKeepsEntries(s, id);
    case _ => QuietKeepsEntries(s, a);
  }

  // ------------------------------------------------------------------------- runs

  ghost predicate IsRun(s: Proxy, run: seq<Step>)
    requires AllCoherent(s) && EntriesTrue(s)
    decreases |run|
  {
    run == [] || (Can(s, run[0]) && (StepKeepsProxy(s, run[0]); IsRun(After(s, run[0]), run[1..])))
  }

  ghost function Exec(s: Proxy, run: seq<Step>): (s': Proxy)
    requires AllCoherent(s) && EntriesTrue(s) && IsRun(s, run)
    ensures AllCoherent(s') && EntriesTrue(s') && s'.ttl == s.ttl
    decreases |run|
  {
    if run == [] then s else StepKeepsProxy(s, run[0]); Exec(After(s, run[0]), run[1..])
  }

  /** States some run from the empty proxy leads to. */
  ghost predicate Reachable(s: Proxy) {
    exists run :: IsRun(Start(s.ttl), run) && Exec(Start(s.ttl), run) == s
  }

  // ---------------------------------------------------------------------- the TTL bound

  /**
   Under any interleaving, a hit is a body the backend gave with status 200 for the same name and
   tenant, stored less than a TTL ago; so its age is below the TTL plus the time the read that
   stored it was in flight.
   */
  lemma HitsAreBounded(s: Proxy, id: nat)
    requires Reachable(s) && id in s.requests && s.requests[id].stage.Hit?
    ensures var r, e, at := s.requests[id], s.requests[id].stage.entry, s.requests[id].stage.at;
      && r.kind.Read? && e.source < |s.answers|
      && var a := s.answers[e.source];
         && a.status == 200 && a.body == e.body && a.name == r.kind.name && a.tenant == r.tenant
         && at - e.storedAt < s.ttl && at - a.at < s.ttl + (e.storedAt - a.at)
  {
    assert Coherent(s, s.requests[id]);
  }

  // ------------------------------------------------------------------ staleness

  /** The entry a lookup would find misses a write the backend has applied. */
  predicate WouldBeStale(s: Proxy, key: string)
    requires key in s.store && s.store[key].source < |s.answers|
  {
    s.answers[s.store[key].source].version < WritesTo(s, key)
  }

  /**
   A stale hit needs an overlap or a lost reply: the read that stored the entry was overtaken by a
   write between its answer and its store, or a write has reached the backend and not dropped the
   entry yet, or its success never arrived. With no write unfinished and none lost, the hit is
   stale exactly when the store was overtaken.
   */
  lemma StaleHitsOverlap(s: Proxy, id: nat)
    requires Reachable(s) && Can(s, Lookup(id)) && IsLive(s, ReadKey(s.requests[id]))
    ensures var key := ReadKey(s.requests[id]);
      && s.store[key].source < |s.answers|
      && (WouldBeStale(s, key) ==> s.store[key].storedStale || WriteUnfinished(s, key) || key in s.lost)
      && (s.store[key].storedStale ==> WouldBeStale(s, key))
      && (!WriteUnfinished(s, key) && key !in s.lost ==> (WouldBeStale(s, key) <==> s.store[key].storedStale))
  {
    var key := ReadKey(s.requests[id]);
    assert EntryTrue(s, key, s.store[key]) && Accounted(s, key);
  }

  /** Whenever the success of a write is lost, what was cached stays cached, and is stale. */
  lemma LostReplyStaysCached(s: Proxy, w: nat, name: string)
    requires ProxyInv(s) && Can(s, Lose(w)) && s.requests[w].kind == Write([name])
    requires IsLive(s, Key(name, s.requests[w].tenant))
    ensures var s', key := After(s, Lose(w)), Key(name, s.requests[w].tenant);
      IsLive(s', key) && s'.store[key].source < |s'.answers| && WouldBeStale(s', key) && AtStage(s', w, Done)
  {
    var key := Key(name, s.requests[w].tenant);
    assert EntryTrue(s, key, s.store[key]);
    assert name in [name] && key in KeysOf([name], s.requests[w].tenant);
  }

  predicate InFlight(stage: Stage) {
    stage.Arrived? || stage.Missed? || stage.Fetched? || stage.Invalidating?
  }

  /** Every request begins after the one before has ended. */
  ghost predicate TakesTurns(s: Proxy, run: seq<Step>)
    requires ProxyInv(s) && IsRun(s, run)
    decreases |run|
  {
    run == [] ||
    (&& (run[0].Begin? ==> forall id :: id in s.requests ==> !InFlight(s.requests[id].stage))
     && (StepKeepsProxy(s, run[0]); TakesTurns(After(s, run[0]), run[1..])))
  }

  /** With requests taking turns: at most one is in flight. */
  ghost predicate OneInFlight(s: Proxy) {
    forall i, j ::
      i in s.requests && j in s.requests && InFlight(s.requests[i].stage) && InFlight(s.requests[j].stage) ==> i == j
  }

  predicate FetchedFresh(s: Proxy, r: Request)
    requires Coherent(s, r) && r.stage.Fetched?
  {
    s.answers[r.stage.source].version == WritesTo(s, ReadKey(r))
  }

  /** Nobody fetches or writes behind another's back. */
  ghost predicate NothingBehind(s: Proxy)
    requires AllCoherent(s)
  {
    && (forall id :: id in s.requests && s.requests[id].stage.Fetched? ==> FetchedFresh(s, s.requests[id]))
    && (forall key :: key in s.store ==> !s.store[key].storedStale)
  }

  lemma OneInFlightStays(s: Proxy, a: Step)
    requires AllCoherent(s) && Can(s, a) && OneInFlight(s)
    requires a.Begin? ==> forall id :: id in s.requests ==> !InFlight(s.requests[id].stage)
    ensures OneInFlight(After(s, a))
  {
  }

  lemma StepKeepsTurns(s: Proxy, a: Step)
    requires ProxyInv(s) && Can(s, a) && OneInFlight(s) && NothingBehind(s)
    requires a.Begin? ==> forall id :: id in s.requests ==> !InFlight(s.requests[id].stage)
    ensures AllCoherent(After(s, a)) && OneInFlight(After(s, a)) && NothingBehind(After(s, a))
  {
    StepCoherent(s, a);
    OneInFlightStays(s, a);
    if a.Perform? || a.Lose? {
      WriteBehindNobody(s, a);
    } else {
      OthersBehindNobody(s, a);
    }
  }

  lemma WriteBehindNobody(s: Proxy, a: Step)
    requires AllCoherent(s) && Can(s, a) && OneInFlight(s) && NothingBehind(s) && (a.Perform? || a.Lose?) &&
             AllCoherent(After(s, a))
    ensures NothingBehind(After(s, a))
  {
    var s' := After(s, a);
    assert InFlight(s.requests[a.id].stage);
    forall id | id in s'.requests ensures !s'.requests[id].stage.Fetched? {
      assert id != a.id ==> s'.requests[id] == s.requests[id];
    }
  }

  lemma OthersBehindNobody(s: Proxy, a: Step)
    requires AllCoherent(s) && Can(s, a) && NothingBehind(s) && !a.Perform? && !a.Lose? && AllCoherent(After(s, a))
    ensures NothingBehind(After(s, a))
  {
    var s' := After(s, a);
    hide AllCoherent;
    forall id | id in s'.requests && s'.requests[id].stage.Fetched? ensures FetchedFresh(s', s'.requests[id]) {
      if id in s.requests && s.requests[id].stage.Fetched? {
        assert FetchedFresh(s, s.requests[id]);
      }
    }
  }

  lemma {:induction false} TurnsStayFresh(s: Proxy, run: seq<Step>)
    requires ProxyInv(s) && IsRun(s, run) && OneInFlight(s) && NothingBehind(s) && TakesTurns(s, run)
    ensures OneInFlight(Exec(s, run)) && NothingBehind(Exec(s, run))
    decreases |run|
  {
    hide Can, After, OneInFlight, NothingBehind;
    if run != [] {
      StepKeepsProxy(s, run[0]);
      StepKeepsTurns(s, run[0]);
      TurnsStayFresh(After(s, run[0]), run[1..]);
    }
  }

  /**
   When requests take turns, a hit never predates the last write applied to its data, unless the success of one was
   lost.
   */
  lemma SequentialHitsAreFresh(ttl: real, run: seq<Step>, id: nat)
    requires IsRun(Start(ttl), run) && TakesTurns(Start(ttl), run)
    requires var s := Exec(Start(ttl), run); Can(s, Lookup(id)) && IsLive(s, ReadKey(s.requests[id]))
    ensures var s := Exec(Start(ttl), run);
      var key := ReadKey(s.requests[id]);
      && s.store[key].source < |s.answers|
      && (WouldBeStale(s, key) ==> key in s.lost)
  {
    var s := Exec(Start(ttl), run);
    TurnsStayFresh(Start(ttl), run);
    assert Reachable(s);
    StaleHitsOverlap(s, id);
    var key := ReadKey(s.requests[id]);
    assert InFlight(s.requests[id].stage);
    assert forall o :: o in s.requests && o != id ==> !InFlight(s.requests[o].stage);
    assert !WriteUnfinished(s, key);
  }

  /** What a store does to the store. */
  lemma StoreEffect(s: Proxy, id: nat)
    requires ProxyInv(s) && Can(s, Store(id))
    ensures s.requests[id].kind.Read? && s.requests[id].stage.source < |s.answers|
    ensures var key, s' := ReadKey(s.requests[id]), After(s, Store(id));
      && s'.store == s.store[key := EntryFor(s, key, s.requests[id].stage.source)]
      && s'.answers == s.answers && s'.writes == s.writes && s'.lost == s.lost
  {
    assert Coherent(s, s.requests[id]);
  }

  lemma OneStep(s: Proxy, a: Step)
    requires ProxyInv(s) && Can(s, a)
    ensures ProxyInv(After(s, a)) && IsRun(s, [a]) && Exec(s, [a]) == After(s, a)
  {
    StepKeepsProxy(s, a);
    hide Can, After, ProxyInv;
    assert [a][1..] == [];
  }

  lemma ConsStep(s: Proxy, a: Step, rest: seq<Step>)
    requires ProxyInv(s) && Can(s, a)
    requires ProxyInv(After(s, a)) ==> IsRun(After(s, a), rest)
    ensures ProxyInv(After(s, a)) && IsRun(s, [a] + rest) && Exec(s, [a] + rest) == Exec(After(s, a), rest)
  {
    StepKeepsProxy(s, a);
    hide Can, After, ProxyInv;
    assert ([a] + rest)[1..] == rest;
  }

  /** The write applied and invalidated, state by state. */
  lemma WriteOvertakes(s: Proxy, w: nat, name: string) returns (s1: Proxy, s2: Proxy)
    requires ProxyInv(s) && AtStage(s, w, Arrived) && s.requests[w].kind == Write([name])
    ensures Can(s, Perform(w, 200)) && s1 == After(s, Perform(w, 200)) && ProxyInv(s1)
    ensures Can(s1, Invalidate(w)) && s2 == After(s1, Invalidate(w)) && ProxyInv(s2)
    ensures var key := Key(name, s.requests[w].tenant);
      && WritesTo(s2, key) == WritesTo(s, key) + 1 && s2.answers == s.answers && s2.ttl == s.ttl
      && s2.requests == s.requests[w := s.requests[w].(stage := Done)]
  {
    WriteApplies(s, w, name);
    s1 := After(s, Perform(w, 200));
    StepKeepsProxy(s, Perform(w, 200));
    hide ProxyInv;
    s2 := After(s1, Invalidate(w));
    StepKeepsProxy(s1, Invalidate(w));
    assert s2.requests == s.requests[w := s.requests[w].(stage := Done)];
  }

  lemma WriteApplies(s: Proxy, w: nat, name: string)
    requires ProxyInv(s) && AtStage(s, w, Arrived) && s.requests[w].kind == Write([name])
    ensures Can(s, Perform(w, 200))
    ensures var s1, key := After(s, Perform(w, 200)), Key(name, s.requests[w].tenant);
      && WritesTo(s1, key) == WritesTo(s, key) + 1 && s1.answers == s.answers && s1.ttl == s.ttl
      && s1.requests == s.requests[w := s.requests[w].(stage := Dropping([name], 0))]
  {
    var key := Key(name, s.requests[w].tenant);
    assert name in [name] && key in KeysOf([name], s.requests[w].tenant);
  }

  /**
   Concurrent requests break freshness: whenever a write overtakes a read between its answer and its store, the old body
   is cached.
   */
  lemma OvertakenReadStoresStale(s: Proxy, r: nat, w: nat) returns (run: seq<Step>)
    requires ProxyInv(s) && s.ttl > 0.0 && r in s.requests && w in s.requests
    requires s.requests[r].stage.Fetched? && s.requests[w].stage == Arrived
    requires s.requests[w].tenant == s.requests[r].tenant
    requires s.requests[r].kind.Read? && s.requests[w].kind == Write([s.requests[r].kind.name])
    ensures IsRun(s, run)
    ensures var s', key := Exec(s, run), ReadKey(s.requests[r]);
      && AtStage(s', r, Done) && AtStage(s', w, Done)
      && IsLive(s', key) && s'.store[key].source < |s'.answers| && WouldBeStale(s', key)
  {
    assert Coherent(s, s.requests[r]);
    hide ProxyInv;
    var s1, s2 := WriteOvertakes(s, w, s.requests[r].kind.name);
    OldBodyStored(s2, r, s.requests[r].stage.source);
    hide Can, After, AllCoherent;
    OneStep(s2, Store(r));
    ConsStep(s1, Invalidate(w), [Store(r)]);
    ConsStep(s, Perform(w, 200), [Invalidate(w)] + [Store(r)]);
    run := [Perform(w, 200)] + ([Invalidate(w)] + [Store(r)]);
  }

  lemma OldBodyStored(s: Proxy, r: nat, source: nat)
    requires ProxyInv(s) && s.ttl > 0.0 && r in s.requests && s.requests[r].kind.Read?
    requires s.requests[r].stage == Fetched(source)
    requires source < |s.answers| && s.answers[source].version < WritesTo(s, ReadKey(s.requests[r]))
    ensures Can(s, Store(r))
    ensures var s', key := After(s, Store(r)), ReadKey(s.requests[r]);
      && s'.requests == s.requests[r := s.requests[r].(stage := Done)]
      && IsLive(s', key) && s'.store[key].source < |s'.answers| && WouldBeStale(s', key)
  {
  }
}
