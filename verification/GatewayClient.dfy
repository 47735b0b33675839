/** The gateway's client: every downstream call goes through its service's breaker. */
module GatewayClient {
  import opened Breakers

  /** What the HTTP library does: a request error, some other exception, or a response. */
  datatype Transport = RequestError | OtherError | Response(status: int)

  datatype Forwarded = CircuitOpen | DownstreamError | Raised | Answered(status: int)

  predicate KnownService(service: string) {
    service == "payment" || service == "ledger"
  }

  /** A 4xx is the client's fault and counts as healthy; only a request error or a 5xx is a fault. */
  function ReplyOf(service: string, t: Transport): Reply {
    if !KnownService(service) then Escapes
    else
      match t
      case RequestError => Bad
      case OtherError => Escapes
      case Response(status) => if status >= 500 then Bad else Good
  }

  function ResultOf(service: string, t: Transport): Forwarded {
    if !KnownService(service) then Raised
    else
      match t
      case RequestError => DownstreamError
      case OtherError => Raised
      case Response(status) => Answered(status)
  }

  /** A service that exists answers, ... */
  predicate KnownAnswer(service: string, t: Transport) {
    (service == "payment" || service == "ledger") && t.Response? && t.status < 500
  }

  /** ... or is at fault: no connection, no answer in time, or an answer that says so. */
  predicate KnownFault(service: string, t: Transport) {
    (service == "payment" || service == "ledger") && (t == RequestError || (t.Response? && t.status >= 500))
  }

  class Client {
    const registry: Registry

    constructor (registry: Registry)
      ensures this.registry == registry
    {
      this.registry := registry;
    }

    /** One attempt at the service's breaker; no other service's breaker is touched. */
    method Forward(service: string, start: real, end: real, t: Transport, p: Policy) returns (r: Forwarded)
      requires registry.Valid()
      modifies registry, registry.breakers.Values
      ensures registry.Valid()
      ensures registry.ReadingOf(service) ==
              AfterAttempt(old(registry.ReadingOf(service)), Attempt(start, end, ReplyOf(service, t)), p)
      ensures forall n :: n != service ==> registry.ReadingOf(n) == old(registry.ReadingOf(n))
      ensures r.CircuitOpen? <==> !LetsThrough(old(registry.ReadingOf(service)), start, p)
      ensures !r.CircuitOpen? ==> r == ResultOf(service, t)
      // Turned away while open and cooling, and nothing changes but for a breaker that has cooled down.
      ensures var b := old(registry.ReadingOf(service));
        r.CircuitOpen? <==> b.state == Open && start - b.openedAt < p.cooldown
      ensures r.CircuitOpen? ==> registry.ReadingOf(service) == old(registry.ReadingOf(service))
      // An answer below 500 counts as healthy, a 5xx or a request error as one failure, anything else not at all.
      ensures !r.CircuitOpen? && KnownAnswer(service, t) ==>
        registry.ReadingOf(service).failures == 0 && registry.ReadingOf(service).state == Closed
      ensures !r.CircuitOpen? && KnownFault(service, t) ==>
        var b, b' := old(registry.ReadingOf(service)), registry.ReadingOf(service);
        && b'.failures == b.failures + 1
        && (b'.state == Open <==> b.state != Closed || b.failures + 1 >= p.threshold)
        && (b'.state == Open ==> b'.openedAt == end)
      ensures !r.CircuitOpen? && !KnownAnswer(service, t) && !KnownFault(service, t) ==>
        var b, b' := old(registry.ReadingOf(service)), registry.ReadingOf(service);
        && b'.failures == b.failures && b'.openedAt == b.openedAt
        && b'.state == if b.state == Open then HalfOpen else b.state
      // The caller gets the backend's own status, an error that is rendered as unavailable, or an exception.
      ensures !r.CircuitOpen? && (service == "payment" || service == "ledger") ==>
        && (t.Response? ==> r == Answered(t.status))
        && (t == RequestError ==> r == DownstreamError)
        && (t == OtherError ==> r == Raised)
      ensures !r.CircuitOpen? && service != "payment" && service != "ledger" ==> r == Raised
      ensures forall b :: b in registry.breakers.Values ==> b in old(registry.breakers.Values) || fresh(b)
    {
      var breaker := registry.GetBreaker(service);
      var allowed := breaker.Allow(start, p);
      if !allowed {
        return CircuitOpen;
      }
      // An unknown service has no base URL: the lookup raises after the breaker has let the call in.
      if service != "payment" && service != "ledger" {
        return Raised;
      }
      match t {
        case RequestError =>
          breaker.RecordFailure(end, p);
          r := DownstreamError;
        case OtherError =>
          r := Raised;
        case Response(status) =>
          if status >= 500 {
            breaker.RecordFailure(end, p);
          } else {
            breaker.RecordSuccess();
          }
          r := Answered(status);
      }
    }
  }

  /** A service whose every answer is a fault: what the breaker lets through to it is spaced and bounded. */
  lemma DeadServiceIsSpared(service: string, b: Reading, starts: seq<(real, real)>, ts: seq<Transport>, p: Policy)
    requires |starts| == |ts| && p.threshold >= 1 && p.cooldown >= 0.0
    requires var attempts := AttemptsAt(service, starts, ts);
      Sequential(attempts) && (attempts != [] ==> Sane(b, attempts[0].start, p))
    requires forall i :: 0 <= i < |ts| ==> ts[i] == RequestError || (ts[i].Response? && ts[i].status >= 500)
    ensures var calls := FailedCalls(b, AttemptsAt(service, starts, ts), p);
      |calls| > p.threshold ==>
        Times(|calls| - p.threshold, p.cooldown) <= calls[|calls| - 1].start - calls[0].start
  {
    var attempts := AttemptsAt(service, starts, ts);
    assert NoSuccess(attempts);
    WindowBound(b, attempts, p);
  }

  /** A service that answers below 500 every time, client errors included, is never turned away and stays closed. */
  lemma {:induction false} AnsweringServiceIsOpen(service: string, b: Reading, starts: seq<(real, real)>,
                                                  ts: seq<Transport>, p: Policy, i: nat)
    requires |starts| == |ts| && i < |ts| && b.state == Closed && KnownService(service)
    requires forall k :: 0 <= k < |ts| ==> ts[k].Response? && ts[k].status < 500
    ensures var before := ReadingBefore(service, b, starts, ts, p, i);
      && before.state == Closed && LetsThrough(before, starts[i].0, p)
      && (i > 0 ==> before.failures == 0)
  {
    if i > 0 {
      AnsweringServiceIsOpen(service, b, starts, ts, p, i - 1);
    }
  }

  /** The service's breaker before request `i`. */
  function ReadingBefore(service: string, b: Reading, starts: seq<(real, real)>, ts: seq<Transport>, p: Policy,
                         i: nat): Reading
    requires |starts| == |ts| && i <= |ts|
  {
    if i == 0 then b
    else
      AfterAttempt(ReadingBefore(service, b, starts, ts, p, i - 1),
                   Attempt(starts[i - 1].0, starts[i - 1].1, ReplyOf(service, ts[i - 1])), p)
  }

  function AttemptsAt(service: string, starts: seq<(real, real)>, ts: seq<Transport>): seq<Attempt>
    requires |starts| == |ts|
  {
    seq(|ts|, i requires 0 <= i < |ts| => Attempt(starts[i].0, starts[i].1, ReplyOf(service, ts[i])))
  }
}
