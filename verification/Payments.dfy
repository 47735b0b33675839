/** The Payment service's tables and the operations on them. */
module Payments {
  import opened Prelude

  datatype Status = Authorized | Captured | Voided | Failed

  datatype Payment = Payment(
    tenant: string,
    key: Option<string>,
    amount: int,
    currency: string,
    reference: string,
    status: Status)

  /** `GivenUp` is the declared FAILED status, which nothing in the service assigns. */
  datatype RowStatus = Pending | Published | GivenUp

  datatype OutboxRow = OutboxRow(
    paymentId: string,
    tenant: string,
    eventType: string,
    amount: int,
    currency: string,
    reference: string,
    createdAt: nat,
    status: RowStatus)

  /** The two tables one database transaction can change together. */
  datatype Tables = Tables(payments: map<string, Payment>, outbox: map<string, OutboxRow>)

  const PAYMENT_CAPTURED := "PaymentCaptured"

  /** The unique constraint on (tenant, idempotency key), in force only for non-null keys. */
  ghost predicate UniqueKeys(payments: map<string, Payment>) {
    forall p, q :: p in payments && q in payments && SameKey(payments[p], payments[q]) ==> p == q
  }

  predicate SameKey(a: Payment, b: Payment) {
    a.key.Some? && a.tenant == b.tenant && a.key == b.key
  }

  /** A row holds `key` for `tenant`; a null key matches nothing. */
  predicate HoldsKey(p: Payment, tenant: string, key: Option<string>) {
    key.Some? && p.tenant == tenant && p.key == key
  }

  // ---------------------------------------------------------------- capture

  datatype CaptureResult =
    | Done(status: Status, emitted: bool)
    | NotFound
    | InvalidState(found: Status)

  function RowFor(pid: string, p: Payment, at: nat): OutboxRow {
    OutboxRow(pid, p.tenant, PAYMENT_CAPTURED, p.amount, p.currency, p.reference, at, Pending)
  }

  /** One payment of this tenant, or nothing: the tenant filter comes before the id. */
  predicate Visible(payments: map<string, Payment>, tenant: string, pid: string) {
    pid in payments && payments[pid].tenant == tenant
  }

  predicate Capturable(payments: map<string, Payment>, tenant: string, pid: string) {
    Visible(payments, tenant, pid) && payments[pid].status == Authorized
  }

  function CaptureResultOf(payments: map<string, Payment>, tenant: string, pid: string): CaptureResult {
    if !Visible(payments, tenant, pid) then NotFound
    else if payments[pid].status == Captured then Done(Captured, false)
    else if payments[pid].status != Authorized then InvalidState(payments[pid].status)
    else Done(Captured, true)
  }

  /** The four results, told apart by the payment's presence, tenant and status alone. */
  lemma CaptureCases(payments: map<string, Payment>, tenant: string, pid: string)
    ensures var r := CaptureResultOf(payments, tenant, pid);
      var mine := pid in payments && payments[pid].tenant == tenant;
      && (r == NotFound <==> !mine)
      && (r == Done(Captured, true) <==> mine && payments[pid].status == Authorized)
      && (r == Done(Captured, false) <==> mine && payments[pid].status == Captured)
      && (forall s :: r == InvalidState(s) <==> mine && payments[pid].status == s && s != Authorized && s != Captured)
  {
  }

  /** The status change and the outbox row are one transaction: both happen or neither does. */
  function CaptureTables(t: Tables, tenant: string, pid: string, eventId: string, at: nat): Tables {
    if Capturable(t.payments, tenant, pid) then
      Tables(t.payments[pid := t.payments[pid].(status := Captured)],
             t.outbox[eventId := RowFor(pid, t.payments[pid], at)])
    else t
  }

  // ------------------------------------------------------------- compensate

  /** Compensation looks at nothing but VOIDED: on its own it would void an AUTHORIZED payment. */
  function CompensatePayments(payments: map<string, Payment>, pid: string): map<string, Payment> {
    if pid !in payments || payments[pid].status == Voided then payments
    else payments[pid := payments[pid].(status := Voided)]
  }

  // ------------------------------------------------------------------ batch

  datatype ItemOutcome = ItemCaptured | ItemAlreadyCaptured | ItemNotFound | ItemInvalidState(found: Status)

  datatype Item = Item(paymentId: string, outcome: ItemOutcome)

  function OutcomeOf(r: CaptureResult): ItemOutcome {
    match r
    case Done(_, true) => ItemCaptured
    case Done(_, false) => ItemAlreadyCaptured
    case NotFound => ItemNotFound
    case InvalidState(s) => ItemInvalidState(s)
  }

  /** Items captured one after another, each in its own transaction. */
  function BatchTables(t: Tables, tenant: string, ids: seq<string>, eventIds: seq<string>, at: nat): Tables
    requires |ids| == |eventIds|
  {
    if ids == [] then t
    else
      var last := |ids| - 1;
      CaptureTables(BatchTables(t, tenant, ids[..last], eventIds[..last], at), tenant, ids[last], eventIds[last], at)
  }

  /** What item `i` of the batch reports, read off the payments before the batch alone. */
  function ItemAt(payments: map<string, Payment>, tenant: string, ids: seq<string>, i: nat): Item
    requires i < |ids|
  {
    var first := CaptureResultOf(payments, tenant, ids[i]);
    Item(ids[i], if ids[i] in ids[..i] && first == Done(Captured, true) then ItemAlreadyCaptured else OutcomeOf(first))
  }

  /** An item's outcome by the payments before the batch: a repeated id is captured once, and then already captured. */
  ghost predicate ItemTells(item: Item, payments: map<string, Payment>, tenant: string, ids: seq<string>, i: nat)
    requires i < |ids|
  {
    var pid := ids[i];
    var mine, again := pid in payments && payments[pid].tenant == tenant, pid in ids[..i];
    && item.paymentId == pid
    && (item.outcome == ItemNotFound <==> !mine)
    && (item.outcome == ItemCaptured <==> mine && payments[pid].status == Authorized && !again)
    && (item.outcome == ItemAlreadyCaptured <==>
        mine && (payments[pid].status == Captured || (payments[pid].status == Authorized && again)))
    && (forall s :: item.outcome == ItemInvalidState(s) <==>
        mine && payments[pid].status == s && s != Authorized && s != Captured)
  }

  lemma ItemCases(payments: map<string, Payment>, tenant: string, ids: seq<string>, i: nat)
    requires i < |ids|
    ensures ItemTells(ItemAt(payments, tenant, ids, i), payments, tenant, ids, i)
  {
    CaptureCases(payments, tenant, ids[i]);
  }

  /** Exactly the tenant's AUTHORIZED payments among `ids` are CAPTURED now, and nothing else is different. */
  ghost predicate CapturesOnly(before: map<string, Payment>, after: map<string, Payment>, tenant: string,
                               ids: seq<string>) {
    && after.Keys == before.Keys
    && forall p :: p in before ==>
         after[p] == if p in ids && before[p].tenant == tenant && before[p].status == Authorized
                     then before[p].(status := Captured) else before[p]
  }

  /** Row `eventId` announces the capture of this payment. */
  ghost predicate Announces(outbox: map<string, OutboxRow>, eventId: string, pid: string, p: Payment, at: nat) {
    && eventId in outbox
    && outbox[eventId] ==
         OutboxRow(pid, p.tenant, "PaymentCaptured", p.amount, p.currency, p.reference, at, Pending)
  }

  function CountCaptured(items: seq<Item>): nat {
    if items == [] then 0
    else CountCaptured(items[..|items| - 1]) + (if items[|items| - 1].outcome == ItemCaptured then 1 else 0)
  }

  /** The payments after capturing every capturable id of a set, in no particular order. */
  function CapturedAll(payments: map<string, Payment>, tenant: string, ids: set<string>): map<string, Payment> {
    map p | p in payments ::
      if p in ids && Capturable(payments, tenant, p) then payments[p].(status := Captured) else payments[p]
  }

  /** Random identifiers drawn for new rows: pairwise distinct and not yet in the table. */
  ghost predicate FreshIds(outbox: map<string, OutboxRow>, eventIds: seq<string>) {
    Distinct(eventIds) && forall e :: e in eventIds ==> e !in outbox
  }

  /** The batch, whatever its order and repetitions, captures exactly the capturable ids. */
  lemma {:induction false} BatchPayments(t: Tables, tenant: string, ids: seq<string>, eventIds: seq<string>, at: nat)
    requires |ids| == |eventIds|
    ensures BatchTables(t, tenant, ids, eventIds, at).payments == CapturedAll(t.payments, tenant, Elements(ids))
  {
    if ids == [] {
      assert CapturedAll(t.payments, tenant, Elements(ids)) == t.payments;
    } else {
      var last := |ids| - 1;
      BatchPayments(t, tenant, ids[..last], eventIds[..last], at);
      assert ids == ids[..last] + [ids[last]];
      assert Elements(ids) == Elements(ids[..last]) + {ids[last]};
    }
  }

  /** Reordering or repeating ids does not change the final statuses. */
  lemma BatchOrderIrrelevant(t: Tables, tenant: string, ids: seq<string>, ids': seq<string>,
                             eventIds: seq<string>, eventIds': seq<string>, at: nat)
    requires |ids| == |eventIds| && |ids'| == |eventIds'|
    requires Elements(ids) == Elements(ids')
    ensures BatchTables(t, tenant, ids, eventIds, at).payments == BatchTables(t, tenant, ids', eventIds', at).payments
  {
    BatchPayments(t, tenant, ids, eventIds, at);
    BatchPayments(t, tenant, ids', eventIds', at);
  }

  /** A permutation has the same elements, so the previous lemma covers it. */
  lemma PermutationSameElements(ids: seq<string>, ids': seq<string>)
    requires multiset(ids) == multiset(ids')
    ensures Elements(ids) == Elements(ids')
  {
    forall x ensures x in Elements(ids) <==> x in Elements(ids') {
      assert x in ids <==> x in multiset(ids);
      assert x in ids' <==> x in multiset(ids');
    }
  }

  /** Item `i` reports the result of its own capture, although `ItemAt` never runs the batch. */
  lemma ItemIsItsCapture(t: Tables, tenant: string, ids: seq<string>, eventIds: seq<string>, at: nat, i: nat)
    requires |ids| == |eventIds| && i < |ids|
    ensures ItemAt(t.payments, tenant, ids, i).outcome ==
            OutcomeOf(CaptureResultOf(BatchTables(t, tenant, ids[..i], eventIds[..i], at).payments, tenant, ids[i]))
  {
    BatchPayments(t, tenant, ids[..i], eventIds[..i], at);
    assert ids[i] in Elements(ids[..i]) <==> ids[i] in ids[..i];
  }

  function ItemsOf(payments: map<string, Payment>, tenant: string, ids: seq<string>): (items: seq<Item>)
    ensures |items| == |ids|
  {
    seq(|ids|, i requires 0 <= i < |ids| => ItemAt(payments, tenant, ids, i))
  }

  lemma ItemsOfPrefix(payments: map<string, Payment>, tenant: string, ids: seq<string>, n: nat)
    requires n <= |ids|
    ensures ItemsOf(payments, tenant, ids[..n]) == ItemsOf(payments, tenant, ids)[..n]
  {
    forall i | 0 <= i < n
      ensures ItemAt(payments, tenant, ids[..n], i) == ItemAt(payments, tenant, ids, i)
    {
      assert ids[..n][..i] == ids[..i];
    }
  }

  /** No row disappears or changes. */
  ghost predicate KeepsRows(before: map<string, OutboxRow>, after: map<string, OutboxRow>) {
    forall e :: e in before ==> e in after && after[e] == before[e]
  }

  /** One capture adds a row, under the fresh id, exactly when the payment was capturable. */
  lemma CaptureRow(t: Tables, tenant: string, pid: string, eventId: string, at: nat)
    requires eventId !in t.outbox
    ensures var t' := CaptureTables(t, tenant, pid, eventId, at);
            && |t'.outbox| == |t.outbox| + (if Capturable(t.payments, tenant, pid) then 1 else 0)
            && KeepsRows(t.outbox, t'.outbox)
            && forall e :: e in t'.outbox ==> e in t.outbox || e == eventId
  {
    if Capturable(t.payments, tenant, pid) {
      var t' := CaptureTables(t, tenant, pid, eventId, at);
      assert t'.outbox.Keys == t.outbox.Keys + {eventId};
      assert |t'.outbox| == |t'.outbox.Keys|;
    }
  }

  /** `n` rows more, under identifiers drawn for them, and every old row as it was. */
  ghost predicate Grown(before: map<string, OutboxRow>, after: map<string, OutboxRow>, n: nat, eventIds: seq<string>) {
    && |after| == |before| + n
    && KeepsRows(before, after)
    && forall e :: e in after ==> e in before || e in eventIds
  }

  /** One more capture, under the last of the fresh identifiers. */
  lemma GrownByCapture(outbox: map<string, OutboxRow>, mid: Tables, tenant: string, pid: string, eventIds: seq<string>,
                       n: nat, at: nat)
    requires eventIds != [] && FreshIds(outbox, eventIds)
    requires Grown(outbox, mid.outbox, n, eventIds[..|eventIds| - 1])
    ensures var t' := CaptureTables(mid, tenant, pid, eventIds[|eventIds| - 1], at);
      Grown(outbox, t'.outbox, n + (if Capturable(mid.payments, tenant, pid) then 1 else 0), eventIds)
  {
    var init, last := eventIds[..|eventIds| - 1], eventIds[|eventIds| - 1];
    assert last in eventIds && last !in init && last !in mid.outbox;
    CaptureRow(mid, tenant, pid, last, at);
    hide CaptureTables, Capturable, FreshIds;
  }

  lemma FreshPrefix(outbox: map<string, OutboxRow>, eventIds: seq<string>)
    requires eventIds != [] && FreshIds(outbox, eventIds)
    ensures FreshIds(outbox, eventIds[..|eventIds| - 1])
  {
  }

  /** The batch adds exactly one outbox row per item reported as captured, and changes no old row. */
  lemma {:induction false} BatchRows(t: Tables, tenant: string, ids: seq<string>, eventIds: seq<string>, at: nat)
    requires |ids| == |eventIds| && FreshIds(t.outbox, eventIds)
    ensures Grown(t.outbox, BatchTables(t, tenant, ids, eventIds, at).outbox,
                  CountCaptured(ItemsOf(t.payments, tenant, ids)), eventIds)
  {
    if ids == [] {
      assert ItemsOf(t.payments, tenant, ids) == [];
    } else {
      var last := |ids| - 1;
      var before := BatchTables(t, tenant, ids[..last], eventIds[..last], at);
      FreshPrefix(t.outbox, eventIds);
      BatchCountStep(t, tenant, ids, eventIds, at);
      assert BatchTables(t, tenant, ids, eventIds, at) == CaptureTables(before, tenant, ids[last], eventIds[last], at);
      hide BatchTables, CaptureTables, Capturable, ItemsOf, CountCaptured, Grown, FreshIds;
      BatchRows(t, tenant, ids[..last], eventIds[..last], at);
      GrownByCapture(t.outbox, before, tenant, ids[last], eventIds,
                     CountCaptured(ItemsOf(t.payments, tenant, ids[..last])), at);
    }
  }

  lemma BatchCountStep(t: Tables, tenant: string, ids: seq<string>, eventIds: seq<string>, at: nat)
    requires |ids| == |eventIds| > 0
    ensures var last := |ids| - 1;
            var before := BatchTables(t, tenant, ids[..last], eventIds[..last], at);
            CountCaptured(ItemsOf(t.payments, tenant, ids)) ==
            CountCaptured(ItemsOf(t.payments, tenant, ids[..last])) +
            (if Capturable(before.payments, tenant, ids[last]) then 1 else 0)
  {
    var last := |ids| - 1;
    ItemsOfPrefix(t.payments, tenant, ids, last);
    ItemIsItsCapture(t, tenant, ids, eventIds, at, last);
  }

  /** An item reported as captured left its payment's row under its own identifier. */
  lemma {:induction false} BatchRowAt(t: Tables, tenant: string, ids: seq<string>, eventIds: seq<string>, at: nat,
                                      i: nat)
    requires |ids| == |eventIds| && Distinct(eventIds) && i < |ids|
    requires ItemAt(t.payments, tenant, ids, i).outcome == ItemCaptured
    ensures ids[i] in t.payments
    ensures Announces(BatchTables(t, tenant, ids, eventIds, at).outbox, eventIds[i], ids[i], t.payments[ids[i]], at)
  {
    var last := |ids| - 1;
    ItemCases(t.payments, tenant, ids, i);
    if i == last {
      BatchPayments(t, tenant, ids[..last], eventIds[..last], at);
      assert ids[last] !in Elements(ids[..last]);
    } else {
      assert ids[..last][..i] == ids[..i];
      BatchRowAt(t, tenant, ids[..last], eventIds[..last], at, i);
      assert eventIds[i] != eventIds[last];
    }
  }

  /** Running the same ids again captures nothing and writes nothing, whatever the order. */
  lemma {:induction false} BatchRerun(t: Tables, tenant: string, ids: seq<string>, eventIds: seq<string>, at: nat,
                                      again: seq<string>, moreIds: seq<string>, at': nat)
    requires |ids| == |eventIds| && |again| == |moreIds|
    requires Elements(again) <= Elements(ids)
    ensures var t' := BatchTables(t, tenant, ids, eventIds, at);
            && BatchTables(t', tenant, again, moreIds, at') == t'
            && CountCaptured(ItemsOf(t'.payments, tenant, again)) == 0
  {
    var t' := BatchTables(t, tenant, ids, eventIds, at);
    BatchPayments(t, tenant, ids, eventIds, at);
    if again != [] {
      var last := |again| - 1;
      assert again[last] in Elements(again);
      assert forall x :: x in Elements(again[..last]) ==> x in Elements(again);
      BatchRerun(t, tenant, ids, eventIds, at, again[..last], moreIds[..last], at');
      ItemsOfPrefix(t'.payments, tenant, again, last);
      assert !Capturable(t'.payments, tenant, again[last]);
    }
  }

  /** One turn of the batch loop. */
  lemma BatchStep(t: Tables, tenant: string, ids: seq<string>, eventIds: seq<string>, at: nat, n: nat)
    requires |ids| == |eventIds| && n < |ids|
    ensures var mid := BatchTables(t, tenant, ids[..n], eventIds[..n], at);
            && BatchTables(t, tenant, ids[..n + 1], eventIds[..n + 1], at) ==
               CaptureTables(mid, tenant, ids[n], eventIds[n], at)
            && ItemsOf(t.payments, tenant, ids)[..n + 1] ==
               ItemsOf(t.payments, tenant, ids)[..n] +
                 [Item(ids[n], OutcomeOf(CaptureResultOf(mid.payments, tenant, ids[n])))]
  {
    assert ids[..n + 1][..n] == ids[..n] && eventIds[..n + 1][..n] == eventIds[..n];
    ItemIsItsCapture(t, tenant, ids, eventIds, at, n);
  }

  /** What the whole batch reports and leaves behind, by the payments before it. */
  lemma BatchEnds(t: Tables, tenant: string, ids: seq<string>, eventIds: seq<string>, at: nat)
    requires |ids| == |eventIds| && FreshIds(t.outbox, eventIds)
    ensures var t', items := BatchTables(t, tenant, ids, eventIds, at), ItemsOf(t.payments, tenant, ids);
      && t'.payments == CapturedAll(t.payments, tenant, Elements(ids))
      && CapturesOnly(t.payments, t'.payments, tenant, ids)
      && (forall i :: 0 <= i < |ids| ==> ItemTells(items[i], t.payments, tenant, ids, i))
      && (forall i :: 0 <= i < |ids| && items[i].outcome == ItemCaptured ==>
           ids[i] in t.payments && Announces(t'.outbox, eventIds[i], ids[i], t.payments[ids[i]], at))
  {
    var t', items := BatchTables(t, tenant, ids, eventIds, at), ItemsOf(t.payments, tenant, ids);
    BatchPayments(t, tenant, ids, eventIds, at);
    hide BatchTables, ItemAt, ItemTells, Announces;
    forall i | 0 <= i < |ids| ensures ItemTells(items[i], t.payments, tenant, ids, i) {
      ItemCases(t.payments, tenant, ids, i);
    }
    forall i | 0 <= i < |ids| && items[i].outcome == ItemCaptured
      ensures ids[i] in t.payments && Announces(t'.outbox, eventIds[i], ids[i], t.payments[ids[i]], at)
    {
      BatchRowAt(t, tenant, ids, eventIds, at, i);
    }
  }

  // ---------------------------------------------------------------- service

  /** The service over its database: each method body is one transaction under the row lock. */
  class PaymentService {
    var payments: map<string, Payment>
    var outbox: map<string, OutboxRow>

    ghost function Contents(): Tables
      reads this
    {
      Tables(payments, outbox)
    }

    constructor ()
      ensures Contents() == Tables(map[], map[])
    {
      payments, outbox := map[], map[];
    }

    /** `newId` is the identifier a new row would get. */
    method AuthorizePayment(tenant: string, amount: int, currency: string, reference: string,
                            key: Option<string>, newId: string)
      returns (pid: string, created: bool)
      requires UniqueKeys(payments) && newId !in payments
      modifies this
      ensures UniqueKeys(payments) && outbox == old(outbox)
      ensures created <==>
        (|| key.None?
         || forall p :: p in old(payments) ==> old(payments)[p].tenant != tenant || old(payments)[p].key != key)
      ensures created ==> pid == newId
      ensures created ==>
                payments == old(payments)[newId := Payment(tenant, key, amount, currency, reference, Authorized)]
      ensures !created ==> payments == old(payments) && pid in payments
      ensures !created ==> key.Some? && payments[pid].tenant == tenant && payments[pid].key == key
    {
      // An empty key is falsy: it skips the lookup and is caught by the constraint instead.
      if key.Some? && key.value != "" {
        if exists p :: p in payments && HoldsKey(payments[p], tenant, key) {
          pid :| pid in payments && HoldsKey(payments[pid], tenant, key);
          return pid, false;
        }
      }
      if exists p :: p in payments && HoldsKey(payments[p], tenant, key) {
        pid :| pid in payments && HoldsKey(payments[pid], tenant, key);
        created := false;
      } else {
        payments := payments[newId := Payment(tenant, key, amount, currency, reference, Authorized)];
        pid, created := newId, true;
      }
    }

    method CapturePayment(tenant: string, pid: string, eventId: string, at: nat) returns (r: CaptureResult)
      modifies this
      ensures Contents() == CaptureTables(old(Contents()), tenant, pid, eventId, at)
      ensures r == CaptureResultOf(old(payments), tenant, pid)
      // The result by the payment as it was, ...
      ensures r == NotFound <==> pid !in old(payments) || old(payments)[pid].tenant != tenant
      ensures pid in old(payments) && old(payments)[pid].tenant == tenant ==>
        var status := old(payments)[pid].status;
        && (r == Done(Captured, true) <==> status == Authorized)
        && (r == Done(Captured, false) <==> status == Captured)
        && (forall s :: r == InvalidState(s) <==> status == s && s != Authorized && s != Captured)
      // ... and the tables by the result.
      ensures r != Done(Captured, true) ==> payments == old(payments) && outbox == old(outbox)
      ensures r == Done(Captured, true) ==>
        var p := old(payments)[pid];
        && payments == old(payments)[pid := p.(status := Captured)]
        && Announces(outbox, eventId, pid, p, at) && outbox - {eventId} == old(outbox) - {eventId}
    {
      if pid !in payments || payments[pid].tenant != tenant {
        return NotFound;
      }
      var payment := payments[pid];
      if payment.status == Captured {
        return Done(payment.status, false);
      }
      if payment.status != Authorized {
        return InvalidState(payment.status);
      }
      outbox := outbox[eventId := RowFor(pid, payment, at)];
      payment := payment.(status := Captured);
      payments := payments[pid := payment];
      r := Done(payment.status, true);
    }

    method CompensatePayment(pid: string) returns (voided: bool)
      modifies this`payments
      ensures payments == CompensatePayments(old(payments), pid)
      ensures voided <==> payments != old(payments)
      ensures voided <==> pid in old(payments) && old(payments)[pid].status != Voided
      ensures payments.Keys == old(payments).Keys
      ensures forall p :: p in payments ==>
        payments[p] == if p == pid then old(payments)[p].(status := Voided) else old(payments)[p]
    {
      if pid !in payments || payments[pid].status == Voided {
        return false;
      }
      var payment := payments[pid];
      payment := payment.(status := Voided);
      payments := payments[pid := payment];
      voided := true;
      assert payments[pid] != old(payments)[pid];
    }

    /** Results align one-to-one with the ids; the tables move as the items' captures in order. */
    method CapturePaymentsBatch(tenant: string, ids: seq<string>, eventIds: seq<string>, at: nat)
      returns (results: seq<Item>)
      requires |ids| == |eventIds| && FreshIds(outbox, eventIds)
      modifies this
      ensures Contents() == BatchTables(old(Contents()), tenant, ids, eventIds, at)
      ensures results == ItemsOf(old(payments), tenant, ids)
      ensures payments == CapturedAll(old(payments), tenant, Elements(ids))
      ensures |outbox| == |old(outbox)| + CountCaptured(results)
      ensures |results| == |ids|
      ensures forall i :: 0 <= i < |ids| ==> ItemTells(results[i], old(payments), tenant, ids, i)
      ensures CapturesOnly(old(payments), payments, tenant, ids) && KeepsRows(old(outbox), outbox)
      ensures forall i :: 0 <= i < |ids| && results[i].outcome == ItemCaptured ==>
        ids[i] in old(payments) && Announces(outbox, eventIds[i], ids[i], old(payments)[ids[i]], at)
    {
      ghost var t := Contents();
      results := [];
      for n := 0 to |ids|
        invariant Contents() == BatchTables(t, tenant, ids[..n], eventIds[..n], at)
        invariant results == ItemsOf(t.payments, tenant, ids)[..n]
      {
        BatchStep(t, tenant, ids, eventIds, at, n);
        hide BatchTables, CaptureTables, ItemAt, FreshIds;
        var r := CapturePayment(tenant, ids[n], eventIds[n], at);
        var outcome :=
          match r
          case Done(_, emitted) => if emitted then ItemCaptured else ItemAlreadyCaptured
          case NotFound => ItemNotFound
          case InvalidState(s) => ItemInvalidState(s);
        results := results + [Item(ids[n], outcome)];
      }
      assert ids[..|ids|] == ids && eventIds[..|ids|] == eventIds;
      BatchEnds(t, tenant, ids, eventIds, at);
      hide BatchTables, ItemAt, ItemTells, Announces, CapturesOnly, FreshIds;
      BatchRows(t, tenant, ids, eventIds, at);
    }
  }
}
