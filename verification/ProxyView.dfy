/**
 The reverse proxy's one request path: rate limit, cache lookup, breaker-guarded forward, then
 store or invalidate. Its cache traffic is proved to be a run of the cache-aside machine.
 */
module ProxyViews {
  import opened Prelude
  import opened TokenBucket
  import opened Breakers
  import opened GatewayClient
  import M = CacheAside

  datatype Cached = Cached(body: string, deadline: real)

  /** The Redis keys the cache uses, each with its expiry. */
  class Cache {
    var entries: map<string, Cached>

    constructor ()
      ensures entries == map[]
    {
      entries := map[];
    }

    method Get(name: string, tenant: string, now: real) returns (hit: Option<string>)
      ensures hit == Found(entries, M.Key(name, tenant), now)
    {
      var key := M.Key(name, tenant);
      if key in entries && now < entries[key].deadline {
        hit := Some(entries[key].body);
      } else {
        hit := None;
      }
    }

    method Set(name: string, tenant: string, body: string, ttl: real, now: real)
      modifies this
      ensures entries == old(entries)[M.Key(name, tenant) := Cached(body, now + ttl)]
    {
      entries := entries[M.Key(name, tenant) := Cached(body, now + ttl)];
    }

    method Invalidate(name: string, tenant: string)
      modifies this
      ensures entries == old(entries) - {M.Key(name, tenant)}
    {
      entries := entries - {M.Key(name, tenant)};
    }
  }

  function Found(entries: map<string, Cached>, key: string, now: real): Option<string> {
    if key in entries && now < entries[key].deadline then Some(entries[key].body) else None
  }

  datatype Route = Route(service: string, cacheName: string, invalidates: seq<string>)

  /** `tenant` is the validated token's claim, or nothing on a public route. */
  datatype Incoming = Incoming(verb: string, tenant: Option<string>, address: string)

  /**
   What the clocks and the backend do: arrival on the gateway's and on Redis's clock, the call, and the
   reply. `applied` says that the backend applied a write whose success did not arrive.
   */
  datatype Env = Env(now: real, serverNow: real, start: real, end: real, answeredAt: real, storedAt: real,
                     transport: Transport, body: string, applied: bool)

  datatype Settings = Settings(limits: Limits, policy: Policy, ttl: real)

  datatype Reply = Throttled(wait: int) | FromCache(body: string) | Unavailable | Crashed |
                   Proxied(status: int, body: string, miss: bool)

  /** An empty tenant claim is falsy. */
  predicate HasTenant(req: Incoming) {
    req.tenant.Some? && req.tenant.value != ""
  }

  function Identity(req: Incoming): string {
    if HasTenant(req) then "tenant:" + req.tenant.value else "ip:" + req.address
  }

  predicate CachedRead(route: Route, req: Incoming) {
    req.verb == "GET" && route.cacheName != "" && HasTenant(req)
  }

  predicate TenantWrite(req: Incoming) {
    req.verb != "GET" && HasTenant(req)
  }

  ghost predicate PlainNames(route: Route) {
    M.Plain(route.cacheName) && forall n :: n in route.invalidates ==> M.Plain(n)
  }

  /** The cache after a forwarded request. */
  function CacheAfter(entries: map<string, Cached>, route: Route, req: Incoming, f: Forwarded, env: Env,
                      ttl: real): map<string, Cached> {
    if !f.Answered? then entries
    else if CachedRead(route, req) && f.status == 200 then
      entries[M.Key(route.cacheName, req.tenant.value) := Cached(env.body, env.storedAt + ttl)]
    else if TenantWrite(req) && f.status < 400 then entries - M.KeysOf(route.invalidates, req.tenant.value)
    else entries
  }

  /** A write that the backend applied, unknown to the gateway: the request raised, or an error came back. */
  predicate LosesReply(route: Route, req: Incoming, f: Forwarded, env: Env) {
    && TenantWrite(req) && KnownService(route.service) && env.applied
    && (f.DownstreamError? || f.Raised? || (f.Answered? && f.status >= 400))
  }

  function ReplyTo(route: Route, req: Incoming, f: Forwarded, body: string): Reply {
    match f
    case CircuitOpen => Unavailable
    case DownstreamError => Unavailable
    case Raised => Crashed
    case Answered(status) => Proxied(status, body, req.verb == "GET" && route.cacheName != "")
  }

  // ------------------------------------------------------- as a run of the machine

  /** What the machine's store is to the cache. */
  function View(store: map<string, M.Entry>): map<string, Cached> {
    map k | k in store :: Cached(store[k].body, store[k].deadline)
  }

  ghost predicate Leads(s: M.Proxy, s': M.Proxy) {
    M.ProxyInv(s) && M.ProxyInv(s') && s'.ttl == s.ttl && exists run :: M.IsRun(s, run) && M.Exec(s, run) == s'
  }

  lemma LeadsSelf(s: M.Proxy)
    requires M.ProxyInv(s)
    ensures Leads(s, s)
  {
    assert M.IsRun(s, []) && M.Exec(s, []) == s;
  }

  lemma {:induction false} RunThen(s: M.Proxy, run: seq<M.Step>, a: M.Step)
    requires M.ProxyInv(s) && M.IsRun(s, run) && M.Can(M.Exec(s, run), a)
    ensures M.IsRun(s, run + [a]) && M.Exec(s, run + [a]) == M.After(M.Exec(s, run), a)
    decreases |run|
  {
    hide M.Can, M.After;
    if run == [] {
      M.OneStep(s, a);
      assert run + [a] == [a];
    } else {
      M.StepKeepsProxy(s, run[0]);
      RunThen(M.After(s, run[0]), run[1..], a);
      assert (run + [a])[1..] == run[1..] + [a];
    }
  }

  lemma LeadsStep(s0: M.Proxy, s: M.Proxy, a: M.Step)
    requires Leads(s0, s) && M.Can(s, a)
    ensures Leads(s0, M.After(s, a))
  {
    M.StepKeepsProxy(s, a);
    var run :| M.IsRun(s0, run) && M.Exec(s0, run) == s;
    RunThen(s0, run, a);
  }

  lemma LeadsInv(s0: M.Proxy, s: M.Proxy)
    requires Leads(s0, s)
    ensures M.ProxyInv(s0) && M.ProxyInv(s) && s.ttl == s0.ttl
  {
  }

  lemma Begins(s: M.Proxy, id: nat, tenant: string, kind: M.Kind) returns (s': M.Proxy)
    requires M.ProxyInv(s) && id !in s.requests && M.PlainRoute(kind)
    ensures Leads(s, s') && s' == s.(requests := s.requests[id := M.Request(tenant, kind, M.Arrived)])
  {
    LeadsSelf(s);
    LeadsStep(s, s, M.Begin(id, tenant, kind));
    s' := M.After(s, M.Begin(id, tenant, kind));
  }

  lemma Waits(s0: M.Proxy, s: M.Proxy, until: real) returns (s': M.Proxy)
    requires Leads(s0, s) && s.clock <= until
    ensures Leads(s0, s') && s' == s.(clock := until)
  {
    LeadsStep(s0, s, M.Tick(until - s.clock));
    s' := M.After(s, M.Tick(until - s.clock));
  }

  /** No write is counted and none is lost. */
  ghost predicate SameWrites(s: M.Proxy, s': M.Proxy) {
    s'.writes == s.writes && s'.lost == s.lost
  }

  /** A cached read that hits: two steps, and the store stays as it is. */
  lemma HitRuns(s: M.Proxy, id: nat, tenant: string, name: string) returns (s': M.Proxy)
    requires M.ProxyInv(s) && id !in s.requests && M.Plain(name) && M.IsLive(s, M.Key(name, tenant))
    ensures Leads(s, s') && s'.store == s.store && id in s'.requests && SameWrites(s, s')
    ensures s'.requests[id] == M.Request(tenant, M.Read(name), M.Hit(s.store[M.Key(name, tenant)], s.clock))
  {
    var s1 := Begins(s, id, tenant, M.Read(name));
    LeadsStep(s, s1, M.Lookup(id));
    s' := M.After(s1, M.Lookup(id));
  }

  /** A cached read that finds nothing. */
  lemma Misses(s: M.Proxy, id: nat, tenant: string, name: string) returns (s': M.Proxy)
    requires M.ProxyInv(s) && id !in s.requests && M.Plain(name) && !M.IsLive(s, M.Key(name, tenant))
    ensures Leads(s, s') && s' == s.(requests := s.requests[id := M.Request(tenant, M.Read(name), M.Missed)])
  {
    hide Leads, M.AllCoherent, M.EntriesTrue;
    var s1 := Begins(s, id, tenant, M.Read(name));
    LeadsInv(s, s1);
    LeadsStep(s, s1, M.Lookup(id));
    s' := M.After(s1, M.Lookup(id));
  }

  lemma MissFails(s: M.Proxy, id: nat, tenant: string, name: string) returns (s': M.Proxy)
    requires M.ProxyInv(s) && id !in s.requests && M.Plain(name) && !M.IsLive(s, M.Key(name, tenant))
    ensures Leads(s, s') && s'.store == s.store && SameWrites(s, s')
  {
    var s1 := Misses(s, id, tenant, name);
    LeadsStep(s, s1, M.Fail(id));
    s' := M.After(s1, M.Fail(id));
  }

  lemma Fetches(s0: M.Proxy, s: M.Proxy, id: nat, status: int, body: string) returns (s': M.Proxy)
    requires Leads(s0, s) && M.AtStage(s, id, M.Missed)
    ensures Leads(s0, s') && s'.store == s.store && s'.clock == s.clock && s'.ttl == s.ttl && id in s'.requests
    ensures s'.requests[id] == s.requests[id].(stage := if status == 200 then M.Fetched(|s.answers|) else M.Done)
    ensures s.requests[id].kind.Read?
    ensures s'.answers == s.answers + [M.AnswerFor(s, s.requests[id], status, body)] && SameWrites(s, s')
  {
    assert M.Coherent(s, s.requests[id]);
    LeadsStep(s0, s, M.Fetch(id, status, body));
    s' := M.After(s, M.Fetch(id, status, body));
  }

  lemma ViewStores(store: map<string, M.Entry>, key: string, e: M.Entry)
    ensures View(store[key := e]) == View(store)[key := Cached(e.body, e.deadline)]
  {
  }

  lemma Stores(s0: M.Proxy, s: M.Proxy, id: nat) returns (s': M.Proxy)
    requires Leads(s0, s) && id in s.requests && s.requests[id].stage.Fetched? && s.requests[id].kind.Read?
    requires s.requests[id].stage.source < |s.answers|
    ensures Leads(s0, s') && s'.answers == s.answers && SameWrites(s, s')
    ensures var source, key := s.requests[id].stage.source, M.ReadKey(s.requests[id]);
            && key in s'.store && s'.store[key].source == source
            && View(s'.store) == View(s.store)[key := Cached(s.answers[source].body, s.clock + s.ttl)]
  {
    hide Leads, M.AllCoherent, M.EntriesTrue, M.After, View;
    LeadsInv(s0, s);
    M.StoreEffect(s, id);
    LeadsStep(s0, s, M.Store(id));
    s' := M.After(s, M.Store(id));
    ViewStores(s.store, M.ReadKey(s.requests[id]),
               M.EntryFor(s, M.ReadKey(s.requests[id]), s.requests[id].stage.source));
  }

  /** A cached read that misses is fetched, ... */
  lemma MissFetches(s: M.Proxy, id: nat, tenant: string, name: string, status: int, body: string, answeredAt: real)
    returns (s': M.Proxy)
    requires M.ProxyInv(s) && id !in s.requests && M.Plain(name) && !M.IsLive(s, M.Key(name, tenant))
    requires s.clock <= answeredAt
    ensures Leads(s, s') && s'.store == s.store && s'.clock == answeredAt && s'.ttl == s.ttl && id in s'.requests
    ensures s'.requests[id].tenant == tenant && s'.requests[id].kind == M.Read(name)
    ensures status == 200 ==> s'.requests[id].stage == M.Fetched(|s.answers|)
    ensures SameWrites(s, s')
    ensures var version := M.WritesTo(s, M.Key(name, tenant));
            s'.answers == s.answers + [M.Answer(name, tenant, status, body, answeredAt, version)]
  {
    var s1 := Misses(s, id, tenant, name);
    hide Leads, M.ProxyInv, M.IsLive;
    var s2 := Waits(s, s1, answeredAt);
    s' := Fetches(s, s2, id, status, body);
  }

  /** What is cached for the name is the backend's answer, as of all writes it had applied. */
  ghost predicate AnswerStored(s: M.Proxy, s': M.Proxy, name: string, tenant: string, body: string, answeredAt: real) {
    var key := M.Key(name, tenant);
    && key in s'.store && s'.store[key].source < |s'.answers|
    && s'.answers[s'.store[key].source] == M.Answer(name, tenant, 200, body, answeredAt, M.WritesTo(s, key))
  }

  /** ... and stored if the status is 200. */
  lemma MissRuns(s: M.Proxy, id: nat, tenant: string, name: string, status: int, body: string, answeredAt: real,
                 storedAt: real)
    returns (s': M.Proxy)
    requires M.ProxyInv(s) && id !in s.requests && M.Plain(name) && !M.IsLive(s, M.Key(name, tenant))
    requires s.clock <= answeredAt <= storedAt
    ensures Leads(s, s') && SameWrites(s, s')
    ensures status == 200 ==> AnswerStored(s, s', name, tenant, body, answeredAt)
    ensures View(s'.store) == if status == 200
      then View(s.store)[M.Key(name, tenant) := Cached(body, storedAt + s.ttl)] else View(s.store)
  {
    hide Leads, M.ProxyInv, View, M.IsLive, M.Key;
    var s1 := MissFetches(s, id, tenant, name, status, body, answeredAt);
    if status != 200 {
      return s1;
    }
    var s2 := Waits(s, s1, storedAt);
    s' := Stores(s, s2, id);
  }

  lemma Drops(s0: M.Proxy, s: M.Proxy, id: nat, n: nat) returns (s': M.Proxy)
    requires Leads(s0, s) && id in s.requests && s.requests[id].kind.Write? && n < |s.requests[id].kind.invalidates|
    requires s.requests[id].stage == M.Invalidating(n)
    ensures Leads(s0, s') && s'.store == s.store - {M.Key(s.requests[id].kind.invalidates[n], s.requests[id].tenant)}
    ensures id in s'.requests
    ensures s'.requests[id] == s.requests[id].(stage := M.Dropping(s.requests[id].kind.invalidates, n + 1))
    ensures SameWrites(s, s')
  {
    LeadsStep(s0, s, M.Invalidate(id));
    s' := M.After(s, M.Invalidate(id));
  }

  /** Drop the remaining names one by one. */
  lemma {:induction false} DropRuns(s0: M.Proxy, s: M.Proxy, id: nat, n: nat) returns (s': M.Proxy)
    requires Leads(s0, s) && id in s.requests && s.requests[id].kind.Write? && n <= |s.requests[id].kind.invalidates|
    requires s.requests[id].stage == M.Dropping(s.requests[id].kind.invalidates, n)
    ensures Leads(s0, s') && SameWrites(s, s')
    ensures s'.store == s.store - M.KeysOf(s.requests[id].kind.invalidates[n..], s.requests[id].tenant)
    decreases |s.requests[id].kind.invalidates| - n
  {
    hide Leads;
    var names, tenant := s.requests[id].kind.invalidates, s.requests[id].tenant;
    if n == |names| {
      s' := s;
      assert M.KeysOf(names[n..], tenant) == {};
    } else {
      var s1 := Drops(s0, s, id, n);
      s' := DropRuns(s0, s1, id, n + 1);
      assert names[n..] == [names[n]] + names[n + 1..];
      assert M.KeysOf(names[n..], tenant) == {M.Key(names[n], tenant)} + M.KeysOf(names[n + 1..], tenant);
      hide M.KeysOf, M.Key;
    }
  }

  /** One write more counts, to exactly these names of the tenant. */
  ghost predicate Counted(s: M.Proxy, s': M.Proxy, names: seq<string>, tenant: string) {
    forall k :: M.WritesTo(s', k) == M.WritesTo(s, k) + if exists n :: n in names && k == M.Key(n, tenant) then 1 else 0
  }

  /** A write reaches the backend, which answers. */
  lemma Performs(s: M.Proxy, id: nat, tenant: string, names: seq<string>, status: int) returns (s': M.Proxy)
    requires M.ProxyInv(s) && id !in s.requests && forall n :: n in names ==> M.Plain(n)
    ensures Leads(s, s') && s'.store == s.store && id in s'.requests
    ensures s'.requests[id] == M.Request(tenant, M.Write(names), if status < 400 then M.Dropping(names, 0) else M.Done)
    ensures s'.lost == s.lost
    ensures if status < 400 then Counted(s, s', names, tenant) else s'.writes == s.writes
  {
    var s1 := Begins(s, id, tenant, M.Write(names));
    LeadsStep(s, s1, M.Perform(id, status));
    s' := M.After(s1, M.Perform(id, status));
  }

  lemma ViewDrops(store: map<string, M.Entry>, keys: set<string>)
    ensures View(store - keys) == View(store) - keys
  {
  }

  /** A write: the backend first, and then, if it succeeded, every name the route lists is dropped. */
  lemma WriteRuns(s: M.Proxy, id: nat, tenant: string, names: seq<string>, status: int) returns (s': M.Proxy)
    requires M.ProxyInv(s) && id !in s.requests && forall n :: n in names ==> M.Plain(n)
    ensures Leads(s, s') && s'.lost == s.lost
    ensures if status < 400 then Counted(s, s', names, tenant) else s'.writes == s.writes
    ensures View(s'.store) == if status < 400 then View(s.store) - M.KeysOf(names, tenant) else View(s.store)
  {
    s' := Performs(s, id, tenant, names, status);
    hide Leads, M.KeysOf, View;
    if status < 400 {
      s' := DropRuns(s, s', id, 0);
      assert names[0..] == names;
      ViewDrops(s.store, M.KeysOf(names, tenant));
    }
  }

  /** The write counts, its keys are on record as lost, and the store is as it was. */
  ghost predicate Lost(s: M.Proxy, s': M.Proxy, names: seq<string>, tenant: string) {
    && s'.store == s.store && s'.lost == s.lost + M.KeysOf(names, tenant)
    && Counted(s, s', names, tenant)
  }

  /** A write is applied, but the gateway never learns of it. */
  lemma LosesRuns(s: M.Proxy, id: nat, tenant: string, names: seq<string>) returns (s': M.Proxy)
    requires M.ProxyInv(s) && id !in s.requests && forall n :: n in names ==> M.Plain(n)
    ensures Leads(s, s') && Lost(s, s', names, tenant)
  {
    var s1 := Begins(s, id, tenant, M.Write(names));
    LeadsStep(s, s1, M.Lose(id));
    s' := M.After(s1, M.Lose(id));
  }

  /** Whatever becomes of a request, its cache traffic is a run of the machine. */
  lemma RequestRuns(s: M.Proxy, id: nat, route: Route, req: Incoming, f: Forwarded, env: Env) returns (s': M.Proxy)
    requires M.ProxyInv(s) && id !in s.requests && PlainNames(route)
    requires s.clock == env.serverNow <= env.answeredAt <= env.storedAt
    requires CachedRead(route, req) ==> !M.IsLive(s, M.Key(route.cacheName, req.tenant.value))
    ensures Leads(s, s') && View(s'.store) == CacheAfter(View(s.store), route, req, f, env, s.ttl)
    ensures LosesReply(route, req, f, env) ==> Lost(s, s', route.invalidates, req.tenant.value)
    ensures TenantWrite(req) && f.Answered? && f.status < 400 ==>
      Counted(s, s', route.invalidates, req.tenant.value) && s'.lost == s.lost
    ensures CachedRead(route, req) && f == Answered(200) ==>
      AnswerStored(s, s', route.cacheName, req.tenant.value, env.body, env.answeredAt)
    ensures !LosesReply(route, req, f, env) && !(TenantWrite(req) && f.Answered? && f.status < 400) ==>
      SameWrites(s, s')
  {
    hide Leads, Lost, Counted, AnswerStored;
    if LosesReply(route, req, f, env) {
      s' := LosesRuns(s, id, req.tenant.value, route.invalidates);
    } else if CachedRead(route, req) && f.Answered? {
      s' := MissRuns(s, id, req.tenant.value, route.cacheName, f.status, env.body, env.answeredAt, env.storedAt);
    } else if CachedRead(route, req) {
      s' := MissFails(s, id, req.tenant.value, route.cacheName);
    } else if TenantWrite(req) && f.Answered? {
      s' := WriteRuns(s, id, req.tenant.value, route.invalidates, f.status);
    } else {
      LeadsSelf(s);
      s' := s;
    }
  }

  // ------------------------------------------------------- what a request comes to

  /** The names' entries of this tenant are gone, and every other entry is as it was. */
  ghost predicate Dropped(before: map<string, Cached>, after: map<string, Cached>, names: seq<string>, tenant: string) {
    forall k :: if exists n :: n in names && k == M.Key(n, tenant) then k !in after
                else (k in after <==> k in before) && (k in before ==> after[k] == before[k])
  }

  /** The cached body is still alive. */
  ghost predicate Hits(route: Route, req: Incoming, env: Env, entries: map<string, Cached>) {
    && req.verb == "GET" && route.cacheName != "" && req.tenant.Some? && req.tenant.value != ""
    && var key := M.Key(route.cacheName, req.tenant.value);
       key in entries && env.serverNow < entries[key].deadline
  }

  /** The reply and the cache, by what was cached, the breaker's state and what the backend did. */
  ghost predicate RightReply(route: Route, req: Incoming, env: Env, c: Settings, entries: map<string, Cached>,
                             b: Reading, r: Reply, entries': map<string, Cached>) {
    var tenant := if req.tenant.Some? then req.tenant.value else "";
    var key := M.Key(route.cacheName, tenant);
    if Hits(route, req, env, entries) then r == FromCache(entries[key].body) && entries' == entries
    else if b.state == Open && env.start - b.openedAt < c.policy.cooldown then r == Unavailable && entries' == entries
    else if route.service != "payment" && route.service != "ledger" then r == Crashed && entries' == entries
    else
      match env.transport
      case RequestError => r == Unavailable && entries' == entries
      case OtherError => r == Crashed && entries' == entries
      case Response(status) =>
        && r == Proxied(status, env.body, req.verb == "GET" && route.cacheName != "")
        && if req.verb == "GET" && route.cacheName != "" && tenant != "" && status == 200
           then entries' == entries[key := Cached(env.body, env.storedAt + c.ttl)]
           else if req.verb != "GET" && tenant != "" && status < 400
           then Dropped(entries, entries', route.invalidates, tenant)
           else entries' == entries
  }

  /** The breaker lets the request through, to a service there is. */
  predicate Forwards(route: Route, env: Env, c: Settings, b: Reading) {
    && (b.state != Open || env.start - b.openedAt >= c.policy.cooldown)
    && (route.service == "payment" || route.service == "ledger")
  }

  /**
   The machine's request: a hit on what was cached, a 200 answer stored with the writes it knows of, a
   write that counts once, or one that counts although its success is lost. Nothing else is a write.
   */
  ghost predicate RightSteps(route: Route, req: Incoming, env: Env, c: Settings, b: Reading, hit: Option<string>,
                             s: M.Proxy, s': M.Proxy, id: nat) {
    var tenant := if req.tenant.Some? then req.tenant.value else "";
    var key := M.Key(route.cacheName, tenant);
    if hit.Some? then
      && id in s'.requests && key in s.store && s.store[key].body == hit.value
      && s'.requests[id] == M.Request(tenant, M.Read(route.cacheName), M.Hit(s.store[key], s.clock))
      && SameWrites(s, s')
    else if req.verb != "GET" && tenant != "" && Forwards(route, env, c, b) then
      if env.transport.Response? && env.transport.status < 400
      then Counted(s, s', route.invalidates, tenant) && s'.lost == s.lost
      else if env.applied then Lost(s, s', route.invalidates, tenant)
      else SameWrites(s, s')
    else
      && SameWrites(s, s')
      && (req.verb == "GET" && route.cacheName != "" && tenant != "" && Forwards(route, env, c, b) &&
          env.transport == Response(200) ==>
            AnswerStored(s, s', route.cacheName, tenant, env.body, env.answeredAt))
  }

  /** What the view serves is the right reply: from the cache, ... */
  lemma HitRight(route: Route, req: Incoming, env: Env, c: Settings, b: Reading, s: M.Proxy, id: nat)
    returns (s': M.Proxy)
    requires M.ProxyInv(s) && id !in s.requests && PlainNames(route) && s.clock == env.serverNow
    requires LookedUp(View(s.store), route, req, env).Some?
    ensures Leads(s, s') && s'.store == s.store
    ensures var hit := LookedUp(View(s.store), route, req, env);
      && RightSteps(route, req, env, c, b, hit, s, s', id)
      && RightReply(route, req, env, c, View(s.store), b, FromCache(hit.value), View(s.store))
      && Served(route, req, env, c, View(s.store), b, FromCache(hit.value), View(s.store), b)
  {
    hide Leads, M.ProxyInv, M.Key, SameWrites;
    s' := HitRuns(s, id, req.tenant.value, route.cacheName);
  }

  /** ... or not. */
  lemma MissRight(route: Route, req: Incoming, env: Env, c: Settings, entries: map<string, Cached>, b: Reading,
                  r: Reply, entries': map<string, Cached>, b': Reading)
    requires LookedUp(entries, route, req, env) == None
    requires Missed(route, req, env, c, entries, b, r, entries', b')
    ensures RightReply(route, req, env, c, entries, b, r, entries')
    ensures Served(route, req, env, c, entries, b, r, entries', b')
  {
    hide AfterAttempt, M.Key;
    if req.tenant.Some? {
      DroppedAre(entries, route.invalidates, req.tenant.value);
    }
    hide M.KeysOf, Dropped;
  }

  /** What the cache does not give is not live in the machine either. */
  lemma NothingLive(s: M.Proxy, route: Route, req: Incoming, env: Env)
    requires LookedUp(View(s.store), route, req, env) == None && s.clock == env.serverNow
    ensures CachedRead(route, req) ==> !M.IsLive(s, M.Key(route.cacheName, req.tenant.value))
  {
  }

  lemma DroppedAre(entries: map<string, Cached>, names: seq<string>, tenant: string)
    ensures Dropped(entries, entries - M.KeysOf(names, tenant), names, tenant)
  {
  }

  /** A forwarded request takes the right steps. */
  lemma ForwardedSteps(route: Route, req: Incoming, env: Env, c: Settings, b: Reading, f: Forwarded, s: M.Proxy,
                       id: nat) returns (s': M.Proxy)
    requires f == if LetsThrough(b, env.start, c.policy) then ResultOf(route.service, env.transport) else CircuitOpen
    requires M.ProxyInv(s) && id !in s.requests && PlainNames(route)
    requires s.clock == env.serverNow <= env.answeredAt <= env.storedAt
    requires CachedRead(route, req) ==> !M.IsLive(s, M.Key(route.cacheName, req.tenant.value))
    ensures Leads(s, s') && View(s'.store) == CacheAfter(View(s.store), route, req, f, env, s.ttl)
    ensures RightSteps(route, req, env, c, b, None, s, s', id)
  {
    hide Leads, M.ProxyInv, PlainNames, View, CacheAfter, Counted, Lost, SameWrites, AnswerStored, M.Key, M.IsLive;
    s' := RequestRuns(s, id, route, req, f, env);
  }

  // --------------------------------------------------------------------- the view

  class ProxyView {
    const limiter: RedisLimiter
    const cache: Cache
    const client: Client

    constructor (limiter: RedisLimiter, cache: Cache, client: Client)
      ensures this.limiter == limiter && this.cache == cache && this.client == client
    {
      this.limiter, this.cache, this.client := limiter, cache, client;
    }

    /** A tenant's requests share a bucket, wherever they come from; without a tenant an address has its own. */
    static ghost function BucketName(req: Incoming): string {
      match req.tenant
      case None => "ip:" + req.address
      case Some(tenant) => if tenant == "" then "ip:" + req.address else "tenant:" + tenant
    }

    /** A caller whose bucket has less than a token is told to wait for the whole seconds until there is one. */
    static ghost predicate Throttles(l: Limits, e: Option<Entry>, env: Env, throttled: Option<int>)
      requires ValidLimits(l)
    {
      exists allowed, retryAfter, e' ::
        && ScriptSays(l, e, env.now, 1.0, env.serverNow, allowed, retryAfter, e')
        && (throttled.None? <==> allowed)
        && (throttled.Some? ==> (throttled.value - 1) as real <= retryAfter < throttled.value as real)
    }

    /** The seconds to wait, or nothing. */
    method EnforceRateLimit(req: Incoming, env: Env, l: Limits) returns (throttled: Option<int>)
      requires ValidLimits(l)
      modifies limiter
      ensures var answer := ScriptAnswer(l, Live(old(limiter.EntryAt("rl:" + Identity(req))), env.serverNow),
                                         Ask(env.now, 1.0));
        throttled == if answer.allowed then None else Some(RetryAfter(answer.wait))
      ensures forall k :: k != "rl:" + BucketName(req) ==> limiter.EntryAt(k) == old(limiter.EntryAt(k))
      ensures Throttles(l, old(limiter.EntryAt("rl:" + BucketName(req))), env, throttled)
      ensures forall other: string :: other != Identity(req) ==>
        limiter.EntryAt("rl:" + other) == old(limiter.EntryAt("rl:" + other))
    {
      var allowed, retryAfter := limiter.Check(Identity(req), l, env.now, env.serverNow);
      throttled := if allowed then None else Some(retryAfter.Floor + 1);
    }

    method Handle(route: Route, req: Incoming, env: Env, c: Settings, ghost s: M.Proxy, ghost id: nat)
      returns (r: Reply, ghost s': M.Proxy)
      requires client.registry.Valid() && ValidLimits(c.limits) && PlainNames(route)
      requires M.ProxyInv(s) && id !in s.requests && s.ttl == c.ttl && View(s.store) == cache.entries
      requires s.clock == env.serverNow <= env.answeredAt <= env.storedAt
      modifies limiter, cache, client.registry, client.registry.breakers.Values
      ensures client.registry.Valid() && Leads(s, s') && View(s'.store) == cache.entries
      // Over budget: nothing behind the limiter is touched.
      ensures var answer := ScriptAnswer(c.limits, Live(old(limiter.EntryAt("rl:" + Identity(req))), env.serverNow),
                                         Ask(env.now, 1.0));
        && (r.Throttled? <==> !answer.allowed)
        && (r.Throttled? ==> r.wait == RetryAfter(answer.wait))
      ensures !r.Throttled? ==>
        Served(route, req, env, c, old(cache.entries), old(client.registry.ReadingOf(route.service)),
               r, cache.entries, client.registry.ReadingOf(route.service))
      ensures Throttles(c.limits, old(limiter.EntryAt("rl:" + BucketName(req))), env,
                        if r.Throttled? then Some(r.wait) else None)
      ensures !r.Throttled? ==>
        && RightReply(route, req, env, c, old(cache.entries), old(client.registry.ReadingOf(route.service)), r,
                      cache.entries)
        && RightSteps(route, req, env, c, old(client.registry.ReadingOf(route.service)), BodyOf(r), s, s', id)
      ensures r.Throttled? ==>
        cache.entries == old(cache.entries) &&
          client.registry.ReadingOf(route.service) == old(client.registry.ReadingOf(route.service))
      ensures forall n :: n != route.service ==> client.registry.ReadingOf(n) == old(client.registry.ReadingOf(n))
    {
      hide Leads, ScriptAnswer, RetryAfter, Served, RightReply, RightSteps;
      var throttled := EnforceRateLimit(req, env, c.limits);
      if throttled.Some? {
        LeadsSelf(s);
        return Throttled(throttled.value), s;
      }
      r, s' := Serve(route, req, env, c, s, id);
    }

    /** Cache lookup, breaker-guarded forward, store or invalidate. */
    method Serve(route: Route, req: Incoming, env: Env, c: Settings, ghost s: M.Proxy, ghost id: nat)
      returns (r: Reply, ghost s': M.Proxy)
      requires client.registry.Valid() && PlainNames(route)
      requires M.ProxyInv(s) && id !in s.requests && s.ttl == c.ttl && View(s.store) == cache.entries
      requires s.clock == env.serverNow <= env.answeredAt <= env.storedAt
      modifies cache, client.registry, client.registry.breakers.Values
      ensures client.registry.Valid() && Leads(s, s') && View(s'.store) == cache.entries && !r.Throttled?
      ensures Served(route, req, env, c, old(cache.entries), old(client.registry.ReadingOf(route.service)),
                     r, cache.entries, client.registry.ReadingOf(route.service))
      ensures RightReply(route, req, env, c, old(cache.entries), old(client.registry.ReadingOf(route.service)), r,
                         cache.entries)
      ensures RightSteps(route, req, env, c, old(client.registry.ReadingOf(route.service)), BodyOf(r), s, s', id)
      ensures forall n :: n != route.service ==> client.registry.ReadingOf(n) == old(client.registry.ReadingOf(n))
    {
      hide Leads, RightReply, RightSteps, Served, CacheAfter, AfterAttempt, LetsThrough, ResultOf, ReplyTo;
      ghost var entries, b := cache.entries, client.registry.ReadingOf(route.service);
      if CachedRead(route, req) {
        var hit := cache.Get(route.cacheName, req.tenant.value, env.serverNow);
        if hit.Some? {
          s' := HitRight(route, req, env, c, b, s, id);
          return FromCache(hit.value), s';
        }
      }
      r, s' := Fetch(route, req, env, c, s, id);
      MissRight(route, req, env, c, entries, b, r, cache.entries, client.registry.ReadingOf(route.service));
    }

    /** The guarded call, when the cache has nothing, and what its result does to the cache. */
    method Fetch(route: Route, req: Incoming, env: Env, c: Settings, ghost s: M.Proxy, ghost id: nat)
      returns (r: Reply, ghost s': M.Proxy)
      requires client.registry.Valid() && PlainNames(route)
      requires M.ProxyInv(s) && id !in s.requests && s.ttl == c.ttl && View(s.store) == cache.entries
      requires s.clock == env.serverNow <= env.answeredAt <= env.storedAt
      requires LookedUp(cache.entries, route, req, env) == None
      modifies cache, client.registry, client.registry.breakers.Values
      ensures client.registry.Valid() && Leads(s, s') && View(s'.store) == cache.entries
      ensures !r.Throttled? && !r.FromCache?
      ensures Missed(route, req, env, c, old(cache.entries), old(client.registry.ReadingOf(route.service)),
                     r, cache.entries, client.registry.ReadingOf(route.service))
      ensures RightSteps(route, req, env, c, old(client.registry.ReadingOf(route.service)), None, s, s', id)
      ensures forall n :: n != route.service ==> client.registry.ReadingOf(n) == old(client.registry.ReadingOf(n))
    {
      hide Leads, AfterAttempt, LetsThrough, ResultOf, RightSteps, M.ProxyInv, KnownAnswer, KnownFault;
      ghost var b := client.registry.ReadingOf(route.service);
      NothingLive(s, route, req, env);
      hide M.Key, View;
      var f := client.Forward(route.service, env.start, env.end, env.transport, c.policy);
      s' := ForwardedSteps(route, req, env, c, b, f, s, id);
      if f.CircuitOpen? || f.DownstreamError? {
        return Unavailable, s';
      }
      if f.Raised? {
        return Crashed, s';
      }
      if CachedRead(route, req) && f.status == 200 {
        cache.Set(route.cacheName, req.tenant.value, env.body, c.ttl, env.storedAt);
      }
      if TenantWrite(req) && f.status < 400 {
        DropAll(route.invalidates, req.tenant.value);
      }
      r := Proxied(f.status, env.body, req.verb == "GET" && route.cacheName != "");
    }

    method DropAll(names: seq<string>, tenant: string)
      modifies cache
      ensures cache.entries == old(cache.entries) - M.KeysOf(names, tenant)
    {
      assert M.KeysOf(names[..0], tenant) == {};
      for n := 0 to |names|
        invariant cache.entries == old(cache.entries) - M.KeysOf(names[..n], tenant)
      {
        assert names[..n + 1] == names[..n] + [names[n]];
        assert M.KeysOf(names[..n + 1], tenant) == M.KeysOf(names[..n], tenant) + {M.Key(names[n], tenant)};
        cache.Invalidate(names[n], tenant);
      }
      assert names[..|names|] == names;
    }
  }

  /** What the cache holds for a cached read when it looks. */
  function LookedUp(entries: map<string, Cached>, route: Route, req: Incoming, env: Env): Option<string> {
    if CachedRead(route, req) then Found(entries, M.Key(route.cacheName, req.tenant.value), env.serverNow) else None
  }

  /** The body that came from the cache. */
  function BodyOf(r: Reply): Option<string> {
    if r.FromCache? then Some(r.body) else None
  }

  /** One attempt at the breaker, and the cache follows its result. */
  ghost predicate Missed(route: Route, req: Incoming, env: Env, c: Settings, entries: map<string, Cached>, b: Reading,
                         r: Reply, entries': map<string, Cached>, b': Reading) {
    var f := if LetsThrough(b, env.start, c.policy) then ResultOf(route.service, env.transport) else CircuitOpen;
    && r == ReplyTo(route, req, f, env.body)
    && entries' == CacheAfter(entries, route, req, f, env, c.ttl)
    && b' == AfterAttempt(b, Attempt(env.start, env.end, ReplyOf(route.service, env.transport)), c.policy)
  }

  /**
   A request within budget. A cached read that hits is answered from the cache and reaches neither
   the backend nor its breaker. Anything else is one attempt.
   */
  ghost predicate Served(route: Route, req: Incoming, env: Env, c: Settings, entries: map<string, Cached>, b: Reading,
                         r: Reply, entries': map<string, Cached>, b': Reading) {
    var hit := LookedUp(entries, route, req, env);
    if hit.Some? then r == FromCache(hit.value) && entries' == entries && b' == b
    else Missed(route, req, env, c, entries, b, r, entries', b')
  }
}
