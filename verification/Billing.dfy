/** One tenant's credit account: available and reserved credits beside an append-only ledger. */
module Billing {
  import opened Text

  /** What a ledger entry is keyed by: an outbound job, a payment receipt, or nothing. */
  datatype Reference = Job(job: nat) | Receipt(receipt: nat) | NoReference

  datatype Entry = Entry(reference: Reference, creditsDelta: int)

  datatype Account = Account(available: int, reserved: int, ledger: seq<Entry>)

  function LedgerSum(ledger: seq<Entry>): int {
    if ledger == [] then 0 else LedgerSum(ledger[..|ledger| - 1]) + ledger[|ledger| - 1].creditsDelta
  }

  /** How far available and reserved credits together are ahead of the ledger. */
  function Drift(a: Account): int {
    a.available + a.reserved - LedgerSum(a.ledger)
  }

  predicate HasEntry(ledger: seq<Entry>, r: Reference) {
    exists i | 0 <= i < |ledger| :: ledger[i].reference == r
  }

  function Entries(ledger: seq<Entry>, r: Reference): nat {
    if ledger == [] then 0
    else Entries(ledger[..|ledger| - 1], r) + (if ledger[|ledger| - 1].reference == r then 1 else 0)
  }

  lemma {:induction false} HasEntryCounts(ledger: seq<Entry>, r: Reference)
    ensures HasEntry(ledger, r) <==> Entries(ledger, r) > 0
  {
    if ledger != [] {
      var last := |ledger| - 1;
      HasEntryCounts(ledger[..last], r);
      assert HasEntry(ledger, r) <==> HasEntry(ledger[..last], r) || ledger[last].reference == r by {
        assert forall i :: 0 <= i < last ==> ledger[..last][i] == ledger[i];
      }
    }
  }

  // ----- single statements -----

  function Reserved(a: Account, n: int): (r: Option<Account>)
    ensures r.Some? ==> Drift(r.value) == Drift(a) && r.value.ledger == a.ledger
  {
    if a.available >= n then Some(a.(available := a.available - n, reserved := a.reserved + n)) else None
  }

  function Released(a: Account, n: int): (r: Option<Account>)
    ensures r.Some? ==> Drift(r.value) == Drift(a) && r.value.ledger == a.ledger
  {
    if a.reserved >= n then Some(a.(available := a.available + n, reserved := a.reserved - n)) else None
  }

  function Captured(a: Account, n: int): (r: Option<Account>)
    ensures r.Some? ==> Drift(r.value) == Drift(a) - n && r.value.ledger == a.ledger
  {
    if a.reserved >= n then Some(a.(reserved := a.reserved - n)) else None
  }

  /** `INSERT OR IGNORE` under the unique indexes on job references and receipts. */
  function Appended(a: Account, e: Entry): (r: Account)
    ensures !(HasEntry(a.ledger, e.reference) && !e.reference.NoReference?) ==> Drift(r) == Drift(a) - e.creditsDelta
  {
    if HasEntry(a.ledger, e.reference) && !e.reference.NoReference? then a else a.(ledger := a.ledger + [e])
  }

  function Reconciled(a: Account): (r: Account)
    ensures Drift(r) == 0
  {
    a.(available := LedgerSum(a.ledger) - a.reserved)
  }

  function OrElse(r: Option<Account>, a: Account): Account {
    if r.Some? then r.value else a
  }

  // ----- settlement -----

  function Debit(job: nat, cost: nat): Entry {
    Entry(Job(job), 0 - cost)
  }

  /** The statements of one settlement in order, stopped after `steps` of them by a crash. A settlement that
      finds the job's ledger entry only reconciles; an exception in the capture is swallowed. */
  function SettleUpTo(a: Account, job: nat, cost: nat, steps: nat, captureWorks: bool): Account {
    if HasEntry(a.ledger, Job(job)) then (if steps == 0 then a else Reconciled(a))
    else
      var appended := Appended(a, Debit(job, cost));
      var captured := if captureWorks then OrElse(Captured(appended, cost), appended) else appended;
      if steps == 0 then a else if steps == 1 then appended else if steps == 2 then captured else Reconciled(captured)
  }

  function Settlement(a: Account, job: nat, cost: nat): Account {
    SettleUpTo(a, job, cost, 3, true)
  }

  function SettledTimes(a: Account, job: nat, cost: nat, n: nat): Account {
    if n == 0 then a else Settlement(SettledTimes(a, job, cost, n - 1), job, cost)
  }

  lemma AppendedHasEntry(a: Account, e: Entry)
    ensures HasEntry(Appended(a, e).ledger, e.reference)
  {
    var r := Appended(a, e);
    if r != a {
      assert r.ledger[|a.ledger|] == e;
    }
  }

  lemma AppendedLedger(a: Account, e: Entry, r: Reference)
    ensures LedgerSum(a.ledger + [e]) == LedgerSum(a.ledger) + e.creditsDelta
    ensures Entries(a.ledger + [e], r) == Entries(a.ledger, r) + if e.reference == r then 1 else 0
  {
    assert (a.ledger + [e])[..|a.ledger|] == a.ledger;
  }

  /** Settling a job any positive number of times does what settling it once does, and leaves one debit. */
  lemma {:induction false} SettlingAgainChangesNothing(a: Account, job: nat, cost: nat, n: nat)
    requires n >= 1 && Entries(a.ledger, Job(job)) <= 1
    ensures SettledTimes(a, job, cost, n) == Settlement(a, job, cost)
    ensures Entries(SettledTimes(a, job, cost, n).ledger, Job(job)) == 1
    ensures Drift(SettledTimes(a, job, cost, n)) == 0
  {
    hide Drift, LedgerSum, Entries, HasEntry, Appended;
    SettledHasOneEntry(a, job, cost);
    if n > 1 {
      SettlingAgainChangesNothing(a, job, cost, n - 1);
    } else {
      assert SettledTimes(a, job, cost, 0) == a;
    }
  }

  lemma SettledHasOneEntry(a: Account, job: nat, cost: nat)
    requires Entries(a.ledger, Job(job)) <= 1
    ensures var r := Settlement(a, job, cost);
            HasEntry(r.ledger, Job(job)) && Entries(r.ledger, Job(job)) == 1 && Drift(r) == 0 && Reconciled(r) == r
  {
    hide LedgerSum, Entries, HasEntry;
    HasEntryCounts(a.ledger, Job(job));
    AppendedLedger(a, Debit(job, cost), Job(job));
    AppendedHasEntry(a, Debit(job, cost));
  }

  /** A crash inside a settlement leaves the account ahead of the ledger by exactly what was appended and not
      yet captured; the next reconcile closes the gap. */
  lemma CrashedSettlement(a: Account, job: nat, cost: nat, steps: nat, captureWorks: bool)
    requires Drift(a) == 0 && a.reserved >= cost
    ensures var r := SettleUpTo(a, job, cost, steps, captureWorks);
            Drift(r) == (if !HasEntry(a.ledger, Job(job)) && (steps == 1 || (steps == 2 && !captureWorks)) then cost
                         else 0)
            && Drift(Reconciled(r)) == 0
  {
    AppendedLedger(a, Debit(job, cost), Job(job));
  }

  // ----- the statements as they run -----

  class TenantBilling {
    var available: int
    var reserved: int
    var ledger: seq<Entry>

    ghost function Value(): Account
      reads this
    {
      Account(available, reserved, ledger)
    }

    method ReserveTenantAvailableCredits(creditsDelta: int) returns (ok: bool)
      modifies this`available, this`reserved
      ensures ok == (old(available) >= creditsDelta)
      ensures Value() == OrElse(Reserved(old(Value()), creditsDelta), old(Value()))
    {
      ok := available >= creditsDelta;
      if ok {
        available, reserved := available - creditsDelta, reserved + creditsDelta;
      }
    }

    method ReleaseTenantReservedCredits(creditsDelta: int) returns (ok: bool)
      modifies this`available, this`reserved
      ensures ok == (old(reserved) >= creditsDelta)
      ensures Value() == OrElse(Released(old(Value()), creditsDelta), old(Value()))
    {
      ok := reserved >= creditsDelta;
      if ok {
        available, reserved := available + creditsDelta, reserved - creditsDelta;
      }
    }

    method CaptureTenantReservedCredits(creditsDelta: int) returns (ok: bool)
      modifies this`reserved
      ensures ok == (old(reserved) >= creditsDelta)
      ensures Value() == OrElse(Captured(old(Value()), creditsDelta), old(Value()))
    {
      ok := reserved >= creditsDelta;
      if ok {
        reserved := reserved - creditsDelta;
      }
    }

    method FindEntry(reference: Reference) returns (found: bool)
      ensures found == HasEntry(ledger, reference)
    {
      var i := 0;
      while i < |ledger| && ledger[i].reference != reference
        invariant 0 <= i <= |ledger|
        invariant forall j :: 0 <= j < i ==> ledger[j].reference != reference
      {
        i := i + 1;
      }
      found := i < |ledger|;
    }

    method AppendLedgerEntry(e: Entry)
      modifies this`ledger
      ensures Value() == Appended(old(Value()), e)
    {
      var known := FindEntry(e.reference);
      if !known || e.reference.NoReference? {
        ledger := ledger + [e];
      }
    }

    method ReconcileTenantAvailableCredits()
      modifies this`available
      ensures Value() == Reconciled(old(Value()))
    {
      var total := 0;
      for i := 0 to |ledger|
        invariant total == LedgerSum(ledger[..i])
      {
        assert ledger[..i + 1][..i] == ledger[..i];
        total := total + ledger[i].creditsDelta;
      }
      assert ledger[..|ledger|] == ledger;
      available := total - reserved;
    }

    /** `alive` is how many of the writes happen before a crash; three are enough for all of them. */
    method SettleOutboundUsageDebit(job: nat, cost: nat, alive: nat, captureWorks: bool)
      modifies this
      ensures Value() == SettleUpTo(old(Value()), job, cost, alive, captureWorks)
    {
      var existing := FindEntry(Job(job));
      if alive == 0 {
        return;
      }
      if existing {
        ReconcileTenantAvailableCredits();
        return;
      }
      AppendLedgerEntry(Debit(job, cost));
      if alive == 1 {
        return;
      }
      if captureWorks {
        var captured := CaptureTenantReservedCredits(cost);
      }
      if alive == 2 {
        return;
      }
      ReconcileTenantAvailableCredits();
    }
  }
}
