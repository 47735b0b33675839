/**
 Authorize under races. A call looks its key up, inserts, and on a unique conflict reads the
 winner back; each of these is one database statement, and the statements of any number of calls
 interleave with each other and with the status changes other requests make.
 */
module AuthorizeRace {
  import opened Prelude
  import opened Payments
  import opened SagaMachine

  datatype Request = Request(tenant: string, amount: int, currency: string, reference: string, key: Option<string>)

  datatype Stage = LookingUp | Creating | Recovering | Answered(pid: string, created: bool)

  datatype Call = Call(request: Request, stage: Stage)

  /** `calls` remembers every call ever begun, answered or not. */
  datatype Race = Race(payments: map<string, Payment>, calls: map<nat, Call>)

  datatype Move =
    | Begin(call: nat, request: Request)
    | Find(call: nat, found: string)          // the lookup returns a payment
    | Miss(call: nat)                         // the lookup returns nothing
    | Create(call: nat, newId: string)        // the insert wins
    | Conflict(call: nat)                     // the insert violates the unique constraint
    | Recover(call: nat, found: string)       // the loser reads the winner back
    | ChangeStatus(pid: string, status: Status)

  const NoCalls := Race(map[], map[])

  function NewPayment(r: Request): Payment {
    Payment(r.tenant, r.key, r.amount, r.currency, r.reference, Authorized)
  }

  ghost predicate KeyTaken(payments: map<string, Payment>, r: Request) {
    exists p :: p in payments && HoldsKey(payments[p], r.tenant, r.key)
  }

  predicate AtStage(s: Race, c: nat, stage: Stage) {
    c in s.calls && s.calls[c].stage == stage
  }

  predicate Holds(s: Race, c: nat, pid: string)
    requires c in s.calls
  {
    pid in s.payments && HoldsKey(s.payments[pid], s.calls[c].request.tenant, s.calls[c].request.key)
  }

  ghost predicate MayMove(s: Race, m: Move) {
    match m
    case Begin(c, r) => c !in s.calls && r.amount >= 1
    case Find(c, found) => AtStage(s, c, LookingUp) && Holds(s, c, found)
    case Miss(c) => AtStage(s, c, LookingUp) && !KeyTaken(s.payments, s.calls[c].request)
    case Create(c, newId) => AtStage(s, c, Creating) && !KeyTaken(s.payments, s.calls[c].request) &&
      newId !in s.payments
    case Conflict(c) => AtStage(s, c, Creating) && KeyTaken(s.payments, s.calls[c].request)
    case Recover(c, found) => AtStage(s, c, Recovering) && Holds(s, c, found)
    case ChangeStatus(pid, _) => pid in s.payments
  }

  /** An empty key is falsy, so it skips the lookup; the constraint still sees it. */
  function FirstStage(r: Request): Stage {
    if r.key.Some? && r.key.value != "" then LookingUp else Creating
  }

  function At(s: Race, c: nat, stage: Stage): Race
    requires c in s.calls
  {
    s.(calls := s.calls[c := s.calls[c].(stage := stage)])
  }

  ghost function After(s: Race, m: Move): Race
    requires MayMove(s, m)
  {
    match m
    case Begin(c, r) => s.(calls := s.calls[c := Call(r, FirstStage(r))])
    case Find(c, found) => At(s, c, Answered(found, false))
    case Miss(c) => At(s, c, Creating)
    case Create(c, newId) =>
      At(s, c, Answered(newId, true)).(payments := s.payments[newId := NewPayment(s.calls[c].request)])
    case Conflict(c) => At(s, c, Recovering)
    case Recover(c, found) => At(s, c, Answered(found, false))
    case ChangeStatus(pid, status) => s.(payments := s.payments[pid := s.payments[pid].(status := status)])
  }

  ghost predicate IsRace(s: Race, moves: seq<Move>)
    decreases |moves|
  {
    moves == [] || (MayMove(s, moves[0]) && IsRace(After(s, moves[0]), moves[1..]))
  }

  ghost function Raced(s: Race, moves: seq<Move>): Race
    requires IsRace(s, moves)
    decreases |moves|
  {
    if moves == [] then s else Raced(After(s, moves[0]), moves[1..])
  }

  // -------------------------------------------------------------------- invariant

  /** A payment carries, apart from its status, exactly what a request asked for. */
  predicate MadeFor(p: Payment, r: Request) {
    p == NewPayment(r).(status := p.status)
  }

  predicate Created(s: Race, c: nat, pid: string) {
    AtStage(s, c, Answered(pid, true))
  }

  ghost predicate CallSound(s: Race, c: nat)
    requires c in s.calls
  {
    var request, stage := s.calls[c].request, s.calls[c].stage;
    && request.amount >= 1
    && (stage.Recovering? ==> KeyTaken(s.payments, request))
    && (stage.LookingUp? ==> request.key.Some?)
    && (stage.Answered? && stage.created ==> stage.pid in s.payments && MadeFor(s.payments[stage.pid], request))
    && (stage.Answered? && !stage.created ==> Holds(s, c, stage.pid))
  }

  /** Each payment was created by exactly one call. */
  ghost predicate OneCreator(s: Race) {
    && (forall pid :: pid in s.payments ==> exists c :: c in s.calls && Created(s, c, pid))
    && (forall c, d, pid :: Created(s, c, pid) && Created(s, d, pid) ==> c == d)
  }

  ghost predicate RaceInv(s: Race) {
    && UniqueKeys(s.payments)
    && (forall c :: c in s.calls ==> CallSound(s, c))
    && OneCreator(s)
  }

  /** Payments keep everything but their status and never disappear. */
  ghost predicate Lasting(before: map<string, Payment>, after: map<string, Payment>) {
    forall p :: p in before ==> p in after && after[p] == before[p].(status := after[p].status)
  }

  lemma CallSoundLasts(s: Race, s': Race, c: nat)
    requires c in s.calls && c in s'.calls && s'.calls[c] == s.calls[c]
    requires CallSound(s, c) && Lasting(s.payments, s'.payments)
    ensures CallSound(s', c)
  {
    var request := s.calls[c].request;
    if s.calls[c].stage.Recovering? {
      var p :| p in s.payments && HoldsKey(s.payments[p], request.tenant, request.key);
      assert p in s'.payments && HoldsKey(s'.payments[p], request.tenant, request.key);
    }
  }

  /** A call's answer, or its next stage, leaves the payments and the creators alone. */
  lemma StageKeeps(s: Race, c: nat, stage: Stage)
    requires RaceInv(s) && c in s.calls && !s.calls[c].stage.Answered?
    requires stage.Answered? ==> !stage.created && Holds(s, c, stage.pid)
    requires stage.Recovering? ==> KeyTaken(s.payments, s.calls[c].request)
    requires !stage.LookingUp?
    ensures RaceInv(At(s, c, stage))
  {
    var s' := At(s, c, stage);
    forall d | d in s'.calls ensures CallSound(s', d) {
      if d != c { CallSoundLasts(s, s', d); } else { assert CallSound(s, c); }
    }
    assert forall d, pid :: Created(s', d, pid) <==> Created(s, d, pid);
    forall pid | pid in s'.payments ensures exists d :: d in s'.calls && Created(s', d, pid) {
      var d :| d in s.calls && Created(s, d, pid);
      assert d in s'.calls && Created(s', d, pid);
    }
  }

  lemma CreateKeeps(s: Race, c: nat, newId: string)
    requires RaceInv(s) && MayMove(s, Create(c, newId))
    ensures RaceInv(After(s, Create(c, newId)))
  {
    var s', r := After(s, Create(c, newId)), s.calls[c].request;
    assert CallSound(s, c);
    forall d | d in s'.calls ensures CallSound(s', d) {
      if d != c { CallSoundLasts(s, s', d); }
    }
    assert forall p :: p in s.payments ==> !HoldsKey(s.payments[p], r.tenant, r.key);
    assert UniqueKeys(s'.payments);
    forall d, e, pid | Created(s', d, pid) && Created(s', e, pid) ensures d == e {
      assert CallSound(s, d) && CallSound(s, e);
      assert d != c ==> Created(s, d, pid);
      assert e != c ==> Created(s, e, pid);
    }
    forall pid | pid in s'.payments ensures exists d :: d in s'.calls && Created(s', d, pid) {
      if pid == newId {
        assert Created(s', c, pid);
      } else {
        var d :| d in s.calls && Created(s, d, pid);
        assert d in s'.calls && Created(s', d, pid);
      }
    }
  }

  lemma BeginKeeps(s: Race, c: nat, r: Request)
    requires RaceInv(s) && MayMove(s, Begin(c, r))
    ensures RaceInv(After(s, Begin(c, r)))
  {
    var s' := After(s, Begin(c, r));
    forall d | d in s'.calls ensures CallSound(s', d) {
      if d in s.calls { CallSoundLasts(s, s', d); }
    }
    assert forall d, pid :: Created(s', d, pid) <==> Created(s, d, pid);
    forall pid | pid in s'.payments ensures exists d :: d in s'.calls && Created(s', d, pid) {
      var d :| d in s.calls && Created(s, d, pid);
      assert d in s'.calls && Created(s', d, pid);
    }
  }

  lemma StatusKeeps(s: Race, pid: string, status: Status)
    requires RaceInv(s) && MayMove(s, ChangeStatus(pid, status))
    ensures RaceInv(After(s, ChangeStatus(pid, status)))
  {
    var s' := After(s, ChangeStatus(pid, status));
    forall d | d in s'.calls ensures CallSound(s', d) {
      CallSoundLasts(s, s', d);
    }
    assert forall d, p :: Created(s', d, p) <==> Created(s, d, p);
    assert s'.payments.Keys == s.payments.Keys && s'.calls == s.calls;
    StatusKeepsKeys(s.payments, pid, status);
    hide CallSound, MayMove, UniqueKeys;
  }

  lemma StatusKeepsKeys(payments: map<string, Payment>, pid: string, status: Status)
    requires pid in payments && UniqueKeys(payments)
    ensures UniqueKeys(payments[pid := payments[pid].(status := status)])
  {
  }

  lemma MoveKeeps(s: Race, m: Move)
    requires RaceInv(s) && MayMove(s, m)
    ensures RaceInv(After(s, m)) && Lasting(s.payments, After(s, m).payments)
    ensures forall c :: c in s.calls ==>
      c in After(s, m).calls && (s.calls[c].stage.Answered? ==> After(s, m).calls[c] == s.calls[c])
  {
    hide RaceInv;
    match m
    case Find(c, found) => StageKeeps(s, c, Answered(found, false));
    case Miss(c) => StageKeeps(s, c, Creating);
    case Create(c, newId) => CreateKeeps(s, c, newId);
    case Conflict(c) => StageKeeps(s, c, Recovering);
    case Recover(c, found) => StageKeeps(s, c, Answered(found, false));
    case Begin(c, r) => BeginKeeps(s, c, r);
    case ChangeStatus(pid, status) => StatusKeeps(s, pid, status);
  }

  /** Over any race: the invariant holds, answers stand, and no payment changes but in its status. */
  lemma {:induction false} RaceKeeps(s: Race, moves: seq<Move>)
    requires RaceInv(s) && IsRace(s, moves)
    ensures RaceInv(Raced(s, moves)) && Lasting(s.payments, Raced(s, moves).payments)
    ensures forall c :: c in s.calls && s.calls[c].stage.Answered? ==>
      c in Raced(s, moves).calls && Raced(s, moves).calls[c] == s.calls[c]
    decreases |moves|
  {
    hide RaceInv, MayMove, After;
    if moves != [] {
      MoveKeeps(s, moves[0]);
      RaceKeeps(After(s, moves[0]), moves[1..]);
    }
  }

  // ------------------------------------------------------------------- guarantees

  /** For every interleaving, at most one payment per tenant and non-null key. */
  lemma OnePaymentPerKey(moves: seq<Move>)
    requires IsRace(NoCalls, moves)
    ensures UniqueKeys(Raced(NoCalls, moves).payments)
    ensures var payments := Raced(NoCalls, moves).payments;
      forall p, q ::
        (&& p in payments && q in payments && payments[p].key.Some?
         && payments[p].tenant == payments[q].tenant && payments[p].key == payments[q].key) ==> p == q
  {
    RaceKeeps(NoCalls, moves);
  }

  /**
   Two calls that completed with one tenant and one non-null key, at any times of any race, were
   given the same payment; it is what the one call that was told it created it had asked for,
   and at most one call was told so.
   */
  lemma SameKeySamePayment(moves: seq<Move>, c: nat, d: nat) returns (first: nat)
    requires IsRace(NoCalls, moves)
    requires var calls := Raced(NoCalls, moves).calls;
      && c in calls && d in calls && calls[c].stage.Answered? && calls[d].stage.Answered?
      && calls[c].request.key.Some? && calls[c].request.key == calls[d].request.key
      && calls[c].request.tenant == calls[d].request.tenant
    ensures var s := Raced(NoCalls, moves);
      && s.calls[c].stage.pid == s.calls[d].stage.pid
      && (s.calls[c].stage.created && s.calls[d].stage.created ==> c == d)
    ensures var s := Raced(NoCalls, moves);
      && Created(s, first, s.calls[c].stage.pid)
      && s.calls[c].stage.pid in s.payments
      && MadeFor(s.payments[s.calls[c].stage.pid], s.calls[first].request)
      && s.calls[first].request.key == s.calls[c].request.key
      && s.calls[first].request.tenant == s.calls[c].request.tenant
  {
    RaceKeeps(NoCalls, moves);
    var s := Raced(NoCalls, moves);
    assert CallSound(s, c) && CallSound(s, d);
    var p, q := s.calls[c].stage.pid, s.calls[d].stage.pid;
    assert SameKey(s.payments[p], s.payments[q]);
    first :| first in s.calls && Created(s, first, p);
    assert CallSound(s, first);
    assert s.calls[c].stage.created ==> Created(s, c, p);
    assert s.calls[d].stage.created ==> Created(s, d, p);
  }

  /** Without a key nothing is shared: every completed call created its own payment. */
  lemma KeylessAlwaysCreates(moves: seq<Move>, c: nat)
    requires IsRace(NoCalls, moves)
    requires c in Raced(NoCalls, moves).calls && Raced(NoCalls, moves).calls[c].stage.Answered?
    requires Raced(NoCalls, moves).calls[c].request.key.None?
    ensures var s := Raced(NoCalls, moves);
      && s.calls[c].stage.created
      && forall d :: d in s.calls && s.calls[d].stage.Answered? && s.calls[d].stage.pid == s.calls[c].stage.pid ==>
        d == c
  {
    RaceKeeps(NoCalls, moves);
    var s := Raced(NoCalls, moves);
    assert CallSound(s, c);
    forall d | d in s.calls && s.calls[d].stage.Answered? && s.calls[d].stage.pid == s.calls[c].stage.pid
      ensures d == c {
      assert CallSound(s, d);
      assert Created(s, c, s.calls[c].stage.pid);
      assert s.calls[d].stage.created ==> Created(s, d, s.calls[c].stage.pid);
    }
  }

  function Remaining(stage: Stage): nat {
    match stage
    case LookingUp => 3
    case Creating => 2
    case Recovering => 1
    case Answered(_, _) => 0
  }

  /** The call's own next move in state `s`, given the id a new row would get. */
  ghost predicate Advances(s: Race, m: Move, c: nat) {
    && MayMove(s, m)
    && c in s.calls && c in After(s, m).calls
    && Remaining(After(s, m).calls[c].stage) < Remaining(s.calls[c].stage)
  }

  lemma AdvancesWhenTaken(s: Race, c: nat) returns (m: Move)
    requires c in s.calls && !s.calls[c].stage.Answered? && KeyTaken(s.payments, s.calls[c].request)
    ensures Advances(s, m, c)
  {
    var r := s.calls[c].request;
    var p :| p in s.payments && HoldsKey(s.payments[p], r.tenant, r.key);
    m := if s.calls[c].stage.LookingUp? then Find(c, p) else if s.calls[c].stage.Creating? then Conflict(c)
      else Recover(c, p);
  }

  lemma AdvancesWhenFree(s: Race, c: nat, newId: string) returns (m: Move)
    requires c in s.calls && !s.calls[c].stage.Answered? && !s.calls[c].stage.Recovering?
    requires !KeyTaken(s.payments, s.calls[c].request) && newId !in s.payments
    ensures Advances(s, m, c)
  {
    m := if s.calls[c].stage.LookingUp? then Miss(c) else Create(c, newId);
  }

  /** No call ever gets stuck: in particular the loser of the insert always finds the winner. */
  lemma CallsAdvance(moves: seq<Move>, c: nat, newId: string) returns (m: Move)
    requires IsRace(NoCalls, moves)
    requires var s := Raced(NoCalls, moves); c in s.calls && !s.calls[c].stage.Answered? && newId !in s.payments
    ensures Advances(Raced(NoCalls, moves), m, c)
  {
    RaceKeeps(NoCalls, moves);
    var s := Raced(NoCalls, moves);
    assert CallSound(s, c);
    hide RaceInv, IsRace, Raced, Lasting, KeyTaken, Advances;
    if KeyTaken(s.payments, s.calls[c].request) {
      m := AdvancesWhenTaken(s, c);
    } else {
      m := AdvancesWhenFree(s, c, newId);
    }
  }

  /** A winning insert is the saga machine's Authorize action. */
  lemma CreateIsAuthorize(moves: seq<Move>, c: nat, newId: string)
    requires IsRace(NoCalls, moves) && MayMove(Raced(NoCalls, moves), Create(c, newId))
    ensures var s := Raced(NoCalls, moves); CanAuthorize(s.payments, newId, NewPayment(s.calls[c].request))
  {
    RaceKeeps(NoCalls, moves);
    var s := Raced(NoCalls, moves);
    assert CallSound(s, c);
    forall q | q in s.payments ensures !SameKey(s.payments[q], NewPayment(s.calls[c].request)) {
      if SameKey(s.payments[q], NewPayment(s.calls[c].request)) {
        assert HoldsKey(s.payments[q], s.calls[c].request.tenant, s.calls[c].request.key);
      }
    }
  }
}
