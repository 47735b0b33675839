/** The Ledger service: an append-only double-entry journal, posted idempotently. */
module Ledger {
  import opened Prelude

  datatype PaymentEvent = PaymentEvent(
    eventId: string,
    tenant: string,
    paymentId: string,
    amount: int,
    currency: string,
    reference: string)

  datatype AccountKind = Asset | Liability | Revenue | Expense

  datatype Account = Account(tenant: string, code: string, kind: AccountKind)

  datatype Direction = Debit | Credit

  datatype Entry = Entry(tenant: string, eventId: string, paymentId: string)

  /** `entry` is the position of the owning entry; an account is named by its tenant and code. */
  datatype Line = Line(entry: nat, tenant: string, code: string, direction: Direction, amount: int, currency: string)

  datatype Books = Books(accounts: seq<Account>, entries: seq<Entry>, lines: seq<Line>)

  const CASH := "CASH"
  const MERCHANT_PAYABLE := "MERCHANT_PAYABLE"
  const SUPPORTED_CURRENCIES := {"USD", "EUR"}
  const EmptyBooks := Books([], [], [])

  datatype Verdict = Posted | Rejected

  predicate Supported(currency: string) {
    currency in SUPPORTED_CURRENCIES
  }

  /** The business rule depends on the currency alone, so a redelivered event gets the same answer. */
  function Judge(currency: string): Verdict {
    if Supported(currency) then Posted else Rejected
  }

  function Reason(currency: string): string {
    if Supported(currency) then "" else "unsupported settlement currency: " + currency
  }

  // ---------------------------------------------------------------- posting

  predicate HasAccount(accounts: seq<Account>, tenant: string, code: string) {
    exists i :: 0 <= i < |accounts| && accounts[i].tenant == tenant && accounts[i].code == code
  }

  function WithAccount(accounts: seq<Account>, tenant: string, code: string, kind: AccountKind): seq<Account> {
    if HasAccount(accounts, tenant, code) then accounts else accounts + [Account(tenant, code, kind)]
  }

  function WithAccounts(accounts: seq<Account>, tenant: string): seq<Account> {
    WithAccount(WithAccount(accounts, tenant, CASH, Asset), tenant, MERCHANT_PAYABLE, Liability)
  }

  predicate IsPosted(entries: seq<Entry>, eventId: string) {
    exists i :: 0 <= i < |entries| && entries[i].eventId == eventId
  }

  function DebitLine(entry: nat, ev: PaymentEvent): Line {
    Line(entry, ev.tenant, CASH, Debit, ev.amount, ev.currency)
  }

  function CreditLine(entry: nat, ev: PaymentEvent): Line {
    Line(entry, ev.tenant, MERCHANT_PAYABLE, Credit, ev.amount, ev.currency)
  }

  /** What the posting transaction leaves behind when it commits. */
  function AddEntry(b: Books, ev: PaymentEvent): Books {
    Books(WithAccounts(b.accounts, ev.tenant),
          b.entries + [Entry(ev.tenant, ev.eventId, ev.paymentId)],
          b.lines + [DebitLine(|b.entries|, ev), CreditLine(|b.entries|, ev)])
  }

  /** One delivery handled on its own: rejected, already posted, or posted now. */
  function Deliver(b: Books, ev: PaymentEvent): Books {
    if !Supported(ev.currency) || IsPosted(b.entries, ev.eventId) then b else AddEntry(b, ev)
  }

  function DeliverAll(b: Books, evs: seq<PaymentEvent>): Books {
    if evs == [] then b else Deliver(DeliverAll(b, evs[..|evs| - 1]), evs[|evs| - 1])
  }

  // ------------------------------------------------------------------- sums

  function Sum(lines: seq<Line>, selects: Line -> bool): int {
    if lines == [] then 0
    else
      var last := lines[|lines| - 1];
      Sum(lines[..|lines| - 1], selects) + if selects(last) then last.amount else 0
  }

  function OfEntry(entry: nat, direction: Direction): Line -> bool {
    (l: Line) => l.entry == entry && l.direction == direction
  }

  function OnAccount(tenant: string, code: string, direction: Direction): Line -> bool {
    (l: Line) => l.tenant == tenant && l.code == code && l.direction == direction
  }

  function InCurrency(tenant: string, currency: string, direction: Direction): Line -> bool {
    (l: Line) => l.tenant == tenant && l.currency == currency && l.direction == direction
  }

  /** The signed balance the read API derives: debits less credits. */
  function Balance(lines: seq<Line>, tenant: string, code: string): int {
    Sum(lines, OnAccount(tenant, code, Debit)) - Sum(lines, OnAccount(tenant, code, Credit))
  }

  lemma SumAppend(lines: seq<Line>, l: Line, selects: Line -> bool)
    ensures Sum(lines + [l], selects) == Sum(lines, selects) + if selects(l) then l.amount else 0
  {
    assert (lines + [l])[..|lines|] == lines;
  }

  lemma SumAppendTwo(lines: seq<Line>, l: Line, m: Line, selects: Line -> bool)
    ensures Sum(lines + [l, m], selects) ==
            Sum(lines, selects) + (if selects(l) then l.amount else 0) + (if selects(m) then m.amount else 0)
  {
    assert lines + [l, m] == (lines + [l]) + [m];
    SumAppend(lines, l, selects);
    SumAppend(lines + [l], m, selects);
  }

  // -------------------------------------------------------------- soundness

  /** The event entry `i` was posted from, as far as the ledger kept it. */
  function AmountOf(b: Books, i: nat): int
    requires i < |b.entries| && |b.lines| == 2 * |b.entries|
  {
    b.lines[2 * i].amount
  }

  /** One CASH debit and one MERCHANT_PAYABLE credit, equal in amount, currency and tenant. */
  ghost predicate DoubleEntry(b: Books, i: nat)
    requires i < |b.entries| && |b.lines| == 2 * |b.entries|
  {
    var d, c, t := b.lines[2 * i], b.lines[2 * i + 1], b.entries[i].tenant;
    && d == Line(i, t, CASH, Debit, d.amount, d.currency)
    && c == Line(i, t, MERCHANT_PAYABLE, Credit, d.amount, d.currency)
    && HasAccount(b.accounts, t, CASH) && HasAccount(b.accounts, t, MERCHANT_PAYABLE)
  }

  ghost predicate UniqueEvents(entries: seq<Entry>) {
    forall i, j :: 0 <= i < |entries| && 0 <= j < |entries| && entries[i].eventId == entries[j].eventId ==> i == j
  }

  ghost predicate UniqueAccounts(accounts: seq<Account>) {
    forall i, j ::
      (&& 0 <= i < |accounts| && 0 <= j < |accounts|
       && accounts[i].tenant == accounts[j].tenant && accounts[i].code == accounts[j].code) ==> i == j
  }

  /** CASH is an asset account, MERCHANT_PAYABLE a liability, and there are no others. */
  ghost predicate KnownAccounts(accounts: seq<Account>) {
    forall a :: a in accounts ==>
      (a.code == CASH && a.kind == Asset) || (a.code == MERCHANT_PAYABLE && a.kind == Liability)
  }

  ghost predicate Sound(b: Books) {
    && |b.lines| == 2 * |b.entries|
    && (forall i :: 0 <= i < |b.entries| ==> DoubleEntry(b, i))
    && UniqueEvents(b.entries)
    && UniqueAccounts(b.accounts)
    && KnownAccounts(b.accounts)
  }

  lemma WithAccountsSound(accounts: seq<Account>, tenant: string)
    requires UniqueAccounts(accounts) && KnownAccounts(accounts)
    ensures var after := WithAccounts(accounts, tenant);
            && UniqueAccounts(after) && KnownAccounts(after)
            && HasAccount(after, tenant, CASH) && HasAccount(after, tenant, MERCHANT_PAYABLE)
            && accounts <= after
  {
    var one := WithAccount(accounts, tenant, CASH, Asset);
    assert HasAccount(one, tenant, CASH) by {
      if !HasAccount(accounts, tenant, CASH) {
        assert one[|accounts|] == Account(tenant, CASH, Asset);
      }
    }
    var two := WithAccount(one, tenant, MERCHANT_PAYABLE, Liability);
    assert HasAccount(two, tenant, MERCHANT_PAYABLE) by {
      if !HasAccount(one, tenant, MERCHANT_PAYABLE) {
        assert two[|one|] == Account(tenant, MERCHANT_PAYABLE, Liability);
      }
    }
    HasAccountGrows(one, two, tenant, CASH);
  }

  /** Exactly the two accounts are there besides those there were. */
  lemma AccountsNeeded(accounts: seq<Account>, tenant: string)
    requires UniqueAccounts(accounts) && KnownAccounts(accounts)
    ensures var after := WithAccounts(accounts, tenant);
      && accounts <= after
      && forall a :: a in after <==>
           a in accounts || a == Account(tenant, "CASH", Asset) || a == Account(tenant, "MERCHANT_PAYABLE", Liability)
  {
    WithAccountsSound(accounts, tenant);
    var after := WithAccounts(accounts, tenant);
    assert Account(tenant, "CASH", Asset) in after && Account(tenant, "MERCHANT_PAYABLE", Liability) in after;
  }

  lemma HasAccountGrows(accounts: seq<Account>, more: seq<Account>, tenant: string, code: string)
    requires accounts <= more
    ensures HasAccount(accounts, tenant, code) ==> HasAccount(more, tenant, code)
  {
    if HasAccount(accounts, tenant, code) {
      var i :| 0 <= i < |accounts| && accounts[i].tenant == tenant && accounts[i].code == code;
      assert more[i] == accounts[i];
    }
  }

  lemma AddEntrySound(b: Books, ev: PaymentEvent)
    requires Sound(b) && !IsPosted(b.entries, ev.eventId)
    ensures Sound(AddEntry(b, ev))
    ensures IsPosted(AddEntry(b, ev).entries, ev.eventId)
  {
    var b' := AddEntry(b, ev);
    WithAccountsSound(b.accounts, ev.tenant);
    assert b'.entries[|b.entries|].eventId == ev.eventId;
    forall i | 0 <= i < |b'.entries| ensures DoubleEntry(b', i) {
      if i < |b.entries| {
        assert DoubleEntry(b, i);
        HasAccountGrows(b.accounts, b'.accounts, b.entries[i].tenant, CASH);
        HasAccountGrows(b.accounts, b'.accounts, b.entries[i].tenant, MERCHANT_PAYABLE);
      }
    }
  }

  // ------------------------------------------------------------------ sums over sound books

  /** Total of the amounts posted for a tenant, read off the entries in order. */
  function PostedTotal(b: Books, tenant: string, n: nat): int
    requires n <= |b.entries| && |b.lines| == 2 * |b.entries|
  {
    if n == 0 then 0
    else PostedTotal(b, tenant, n - 1) + if b.entries[n - 1].tenant == tenant then AmountOf(b, n - 1) else 0
  }

  /** Lines `0 .. 2n` hold exactly the debits and credits of the first `n` entries. */
  lemma {:induction false} SumsOfPrefix(b: Books, tenant: string, currency: string, n: nat)
    requires Sound(b) && n <= |b.entries|
    ensures var ls := b.lines[..2 * n];
            && Sum(ls, InCurrency(tenant, currency, Debit)) == Sum(ls, InCurrency(tenant, currency, Credit))
            && Balance(ls, tenant, CASH) == PostedTotal(b, tenant, n)
            && Balance(ls, tenant, MERCHANT_PAYABLE) == -PostedTotal(b, tenant, n)
  {
    if n > 0 {
      SumsOfPrefix(b, tenant, currency, n - 1);
      assert DoubleEntry(b, n - 1);
      var ls, d, c := b.lines[..2 * (n - 1)], b.lines[2 * (n - 1)], b.lines[2 * (n - 1) + 1];
      assert b.lines[..2 * n] == ls + [d, c];
      SumAppendTwo(ls, d, c, InCurrency(tenant, currency, Debit));
      SumAppendTwo(ls, d, c, InCurrency(tenant, currency, Credit));
      SumAppendTwo(ls, d, c, OnAccount(tenant, CASH, Debit));
      SumAppendTwo(ls, d, c, OnAccount(tenant, CASH, Credit));
      SumAppendTwo(ls, d, c, OnAccount(tenant, MERCHANT_PAYABLE, Debit));
      SumAppendTwo(ls, d, c, OnAccount(tenant, MERCHANT_PAYABLE, Credit));
    }
  }

  /** What the two accounts have in all: the posted total on their own side, nothing on the other. */
  lemma {:induction false} SidesOfPrefix(b: Books, tenant: string, n: nat)
    requires Sound(b) && n <= |b.entries|
    ensures var ls := b.lines[..2 * n];
      && Sum(ls, OnAccount(tenant, CASH, Debit)) == PostedTotal(b, tenant, n)
      && Sum(ls, OnAccount(tenant, CASH, Credit)) == 0
      && Sum(ls, OnAccount(tenant, MERCHANT_PAYABLE, Debit)) == 0
      && Sum(ls, OnAccount(tenant, MERCHANT_PAYABLE, Credit)) == PostedTotal(b, tenant, n)
  {
    if n > 0 {
      SidesOfPrefix(b, tenant, n - 1);
      assert DoubleEntry(b, n - 1);
      var ls, d, c := b.lines[..2 * (n - 1)], b.lines[2 * (n - 1)], b.lines[2 * (n - 1) + 1];
      assert b.lines[..2 * n] == ls + [d, c];
      SumAppendTwo(ls, d, c, OnAccount(tenant, CASH, Debit));
      SumAppendTwo(ls, d, c, OnAccount(tenant, CASH, Credit));
      SumAppendTwo(ls, d, c, OnAccount(tenant, MERCHANT_PAYABLE, Debit));
      SumAppendTwo(ls, d, c, OnAccount(tenant, MERCHANT_PAYABLE, Credit));
    }
  }

  /** The trial balance: per tenant and currency the book nets to zero, and the two accounts mirror each other. */
  lemma TrialBalance(b: Books, tenant: string, currency: string)
    requires Sound(b)
    ensures Sum(b.lines, InCurrency(tenant, currency, Debit)) == Sum(b.lines, InCurrency(tenant, currency, Credit))
    ensures Balance(b.lines, tenant, CASH) == PostedTotal(b, tenant, |b.entries|)
    ensures Balance(b.lines, tenant, MERCHANT_PAYABLE) == -Balance(b.lines, tenant, CASH)
  {
    SumsOfPrefix(b, tenant, currency, |b.entries|);
    assert b.lines[..2 * |b.entries|] == b.lines;
  }

  /** Among all lines, those of entry `i` sum to its one debit and its one credit. */
  lemma {:induction false} EntrySums(b: Books, i: nat, n: nat)
    requires Sound(b) && i < |b.entries| && n <= |b.entries|
    ensures var amount := if i < n then AmountOf(b, i) else 0;
            && Sum(b.lines[..2 * n], OfEntry(i, Debit)) == amount
            && Sum(b.lines[..2 * n], OfEntry(i, Credit)) == amount
  {
    if n > 0 {
      EntrySums(b, i, n - 1);
      assert DoubleEntry(b, n - 1);
      var ls, d, c := b.lines[..2 * (n - 1)], b.lines[2 * (n - 1)], b.lines[2 * (n - 1) + 1];
      assert b.lines[..2 * n] == ls + [d, c];
      SumAppendTwo(ls, d, c, OfEntry(i, Debit));
      SumAppendTwo(ls, d, c, OfEntry(i, Credit));
    }
  }

  // ------------------------------------------------------------------ deliveries

  /** Totals a ledger would keep if it updated them on every first delivery instead of summing on read. */
  function KeptTotal(b: Books, evs: seq<PaymentEvent>, tenant: string): int {
    if evs == [] then 0
    else
      var n := |evs| - 1;
      KeptTotal(b, evs[..n], tenant) +
      if evs[n].tenant == tenant && Supported(evs[n].currency) &&
        !IsPosted(DeliverAll(b, evs[..n]).entries, evs[n].eventId)
      then evs[n].amount else 0
  }

  /** Deliveries only append: no entry or line is ever changed or removed. */
  lemma {:induction false} DeliverAllGrows(b: Books, evs: seq<PaymentEvent>)
    ensures b.entries <= DeliverAll(b, evs).entries && b.lines <= DeliverAll(b, evs).lines
  {
    if evs != [] {
      DeliverAllGrows(b, evs[..|evs| - 1]);
    }
  }

  /** For any sequence of deliveries, with repeats, balances summed on read equal the totals kept on write. */
  lemma {:induction false} BalancesAreKeptTotals(b: Books, evs: seq<PaymentEvent>, tenant: string)
    requires Sound(b)
    ensures var b' := DeliverAll(b, evs);
            && Sound(b')
            && Balance(b'.lines, tenant, CASH) == Balance(b.lines, tenant, CASH) + KeptTotal(b, evs, tenant)
            && Balance(b'.lines, tenant, MERCHANT_PAYABLE) == -Balance(b'.lines, tenant, CASH)
  {
    if evs == [] {
      TrialBalance(b, tenant, "");
    } else {
      var n := |evs| - 1;
      var mid := DeliverAll(b, evs[..n]);
      BalancesAreKeptTotals(b, evs[..n], tenant);
      if Supported(evs[n].currency) && !IsPosted(mid.entries, evs[n].eventId) {
        AddEntrySound(mid, evs[n]);
        var d, c := DebitLine(|mid.entries|, evs[n]), CreditLine(|mid.entries|, evs[n]);
        SumAppendTwo(mid.lines, d, c, OnAccount(tenant, CASH, Debit));
        SumAppendTwo(mid.lines, d, c, OnAccount(tenant, CASH, Credit));
        TrialBalance(AddEntry(mid, evs[n]), tenant, "");
      }
    }
  }

  /** After any deliveries, a supported event that was among them is posted and an unsupported one adds nothing. */
  lemma {:induction false} DeliveredIsPosted(b: Books, evs: seq<PaymentEvent>, i: nat)
    requires i < |evs| && Supported(evs[i].currency)
    ensures IsPosted(DeliverAll(b, evs).entries, evs[i].eventId)
  {
    var n := |evs| - 1;
    var mid, b' := DeliverAll(b, evs[..n]), DeliverAll(b, evs);
    if i < n {
      DeliveredIsPosted(b, evs[..n], i);
      var k :| 0 <= k < |mid.entries| && mid.entries[k].eventId == evs[i].eventId;
      assert b'.entries[k] == mid.entries[k];
    } else if !IsPosted(mid.entries, evs[i].eventId) {
      assert b'.entries[|mid.entries|].eventId == evs[i].eventId;
    }
  }

  /** Replaying deliveries already made, in any order and number, leaves the books as they are. */
  lemma {:induction false} ReplayChangesNothing(b: Books, evs: seq<PaymentEvent>, replay: seq<PaymentEvent>)
    requires forall e :: e in replay ==> e in evs
    ensures DeliverAll(DeliverAll(b, evs), replay) == DeliverAll(b, evs)
  {
    if replay != [] {
      var last := replay[|replay| - 1];
      ReplayChangesNothing(b, evs, replay[..|replay| - 1]);
      assert last in evs;
      if Supported(last.currency) {
        var i :| 0 <= i < |evs| && evs[i] == last;
        DeliveredIsPosted(b, evs, i);
      }
    }
  }

  // ---------------------------------------------------------------- service

  datatype BalanceRow = BalanceRow(code: string, kind: AccountKind, normalSide: Direction,
                                   debitTotal: int, creditTotal: int, balance: int)

  function RowOf(b: Books, a: Account): BalanceRow {
    var debits, credits := Sum(b.lines, OnAccount(a.tenant, a.code, Debit)),
      Sum(b.lines, OnAccount(a.tenant, a.code, Credit));
    BalanceRow(a.code, a.kind, if a.kind == Asset || a.kind == Expense then Debit else Credit,
               debits, credits, debits - credits)
  }

  /** The service over its database; every method is one transaction that meets no other. */
  class LedgerService {
    var accounts: seq<Account>
    var entries: seq<Entry>
    var lines: seq<Line>

    ghost function Contents(): Books
      reads this
    {
      Books(accounts, entries, lines)
    }

    constructor ()
      ensures Contents() == EmptyBooks
    {
      accounts, entries, lines := [], [], [];
    }

    method GetAccount(tenant: string, code: string, kind: AccountKind)
      modifies this`accounts
      ensures accounts == WithAccount(old(accounts), tenant, code, kind)
    {
      if !HasAccount(accounts, tenant, code) {
        accounts := accounts + [Account(tenant, code, kind)];
      }
    }

    method PostPaymentCaptured(ev: PaymentEvent) returns (status: Verdict, reason: string)
      requires Sound(Contents())
      modifies this
      ensures Contents() == Deliver(old(Contents()), ev)
      ensures Sound(Contents())
      ensures status == Judge(ev.currency) && reason == Reason(ev.currency)
      ensures status == Posted <==> ev.currency == "USD" || ev.currency == "EUR"
      ensures reason == if status == Posted then "" else "unsupported settlement currency: " + ev.currency
      ensures status == Posted ==> exists e :: e in entries && e.eventId == ev.eventId
      // A rejected event and one that has an entry already change nothing; ...
      ensures status == Rejected || (exists e :: e in old(entries) && e.eventId == ev.eventId) ==>
        accounts == old(accounts) && entries == old(entries) && lines == old(lines)
      // ... any other adds its entry with a debit and a credit, and the accounts they need.
      ensures status == Posted && (forall e :: e in old(entries) ==> e.eventId != ev.eventId) ==>
        && entries == old(entries) + [Entry(ev.tenant, ev.eventId, ev.paymentId)]
        && lines == old(lines) + [Line(|old(entries)|, ev.tenant, "CASH", Debit, ev.amount, ev.currency),
                                  Line(|old(entries)|, ev.tenant, "MERCHANT_PAYABLE", Credit, ev.amount, ev.currency)]
        && old(accounts) <= accounts
        && (forall a :: a in accounts <==>
              (|| a in old(accounts)
               || a == Account(ev.tenant, "CASH", Asset) || a == Account(ev.tenant, "MERCHANT_PAYABLE", Liability)))
    {
      if ev.currency !in SUPPORTED_CURRENCIES {
        return Rejected, "unsupported settlement currency: " + ev.currency;
      }
      if IsPosted(entries, ev.eventId) {
        return Posted, "";
      }
      AddEntrySound(Contents(), ev);
      AccountsNeeded(accounts, ev.tenant);
      GetAccount(ev.tenant, CASH, Asset);
      GetAccount(ev.tenant, MERCHANT_PAYABLE, Liability);
      var entry := |entries|;
      entries := entries + [Entry(ev.tenant, ev.eventId, ev.paymentId)];
      lines := lines + [Line(entry, ev.tenant, CASH, Debit, ev.amount, ev.currency)];
      lines := lines + [Line(entry, ev.tenant, MERCHANT_PAYABLE, Credit, ev.amount, ev.currency)];
      assert lines == AddEntry(old(Contents()), ev).lines;
      var debits, credits := Sum(lines, OfEntry(entry, Debit)), Sum(lines, OfEntry(entry, Credit));
      // The balance check never raises.
      assert debits == credits by {
        EntrySums(Contents(), entry, |entries|);
        assert lines[..2 * |entries|] == lines;
      }
      status, reason := Posted, "";
    }

    /** One row for each of the tenant's accounts, in table order. */
    method Balances(tenant: string) returns (data: seq<BalanceRow>, shown: seq<Account>)
      requires Sound(Contents())
      ensures |data| == |shown|
      ensures forall k :: 0 <= k < |data| ==> data[k] == RowOf(Contents(), shown[k])
      ensures Distinct(shown) && forall a :: a in shown <==> a in accounts && a.tenant == tenant
      ensures forall k :: 0 <= k < |data| ==>
        && data[k].code == shown[k].code && data[k].kind == shown[k].kind
        && (data[k].normalSide == Debit <==> data[k].kind == Asset || data[k].kind == Expense)
        && data[k].balance == data[k].debitTotal - data[k].creditTotal
      // Each account has the posted total on its normal side, and nothing on the other.
      ensures var total := PostedTotal(Contents(), tenant, |entries|);
        forall k :: 0 <= k < |data| ==>
          || (&& data[k].code == "CASH" && data[k].normalSide == Debit
              && data[k].debitTotal == total && data[k].creditTotal == 0)
          || (&& data[k].code == "MERCHANT_PAYABLE" && data[k].normalSide == Credit
              && data[k].debitTotal == 0 && data[k].creditTotal == total)
    {
      data, shown := [], [];
      for i := 0 to |accounts|
        invariant |data| == |shown|
        invariant forall k :: 0 <= k < |data| ==> data[k] == RowOf(Contents(), shown[k])
        invariant Distinct(shown) && forall a :: a in shown <==> a in accounts[..i] && a.tenant == tenant
      {
        var a := accounts[i];
        assert a !in accounts[..i];
        if a.tenant == tenant {
          var debit := Sum(lines, OnAccount(a.tenant, a.code, Debit));
          var credit := Sum(lines, OnAccount(a.tenant, a.code, Credit));
          data := data + [BalanceRow(a.code, a.kind, if a.kind == Asset || a.kind == Expense then Debit else Credit,
                                     debit, credit, debit - credit)];
          shown := shown + [a];
        }
      }
      assert accounts[..|accounts|] == accounts;
      SidesOfPrefix(Contents(), tenant, |entries|);
      assert lines[..2 * |entries|] == lines;
      forall k | 0 <= k < |data|
        ensures (data[k].code == CASH && data[k].kind == Asset) ||
                (data[k].code == MERCHANT_PAYABLE && data[k].kind == Liability)
      {
        assert shown[k] in accounts;
      }
    }
  }
}
