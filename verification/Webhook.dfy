/** Terminal delivery events of the provider, one after the other, in whatever order and number they arrive. */
module Webhook {
  import opened Billing
  import opened Jobs
  import opened Text

  datatype EventType = Delivery | Bounce | Complaint | Reject

  /** Message, job and draft as far as events write them. */
  datatype Mark = Open | Done | Broken

  datatype Row = Row(message: Mark, job: JobStatus, draft: Mark)

  /** `events` are the delivery events on record; `releases` counts releases that were triggered (history). */
  datatype Store = Store(row: Row, events: seq<EventType>, account: Account, releases: nat)

  /** The job of the message and what its send costs; nothing when it is not chargeable. */
  datatype Send = Send(job: nat, cost: nat)

  const ALL_SENT := Row(Done, JobStatus.Sent, Done)
  const ALL_FAILED := Row(Broken, JobStatus.Failed, Broken)

  function Release(a: Account, cost: nat): Account {
    OrElse(Released(a, cost), a)
  }

  /** One event, from its record to the last status write. */
  function Handled(x: Send, s: Store, e: EventType): Store {
    var events := s.events + [e];
    if e == Delivery || Delivery in events then
      Store(ALL_SENT, events, if x.cost > 0 then Settlement(s.account, x.job, x.cost) else s.account, s.releases)
    else if s.row.job != JobStatus.Failed then
      Store(ALL_FAILED, events, if x.cost > 0 then Release(s.account, x.cost) else s.account, s.releases + 1)
    else Store(ALL_FAILED, events, s.account, s.releases)
  }

  function Run(x: Send, s: Store, es: seq<EventType>): Store {
    if es == [] then s else Handled(x, Run(x, s, es[..|es| - 1]), es[|es| - 1])
  }

  // ----- what a sequence of events comes to -----

  /** After any events, in any order and with any repetitions, the statuses only tell whether one of them was a
      delivery. */
  lemma {:induction false} StatusesTellDelivery(x: Send, s: Store, es: seq<EventType>)
    requires es != [] && s.events == []
    ensures Run(x, s, es).row == if Delivery in es then ALL_SENT else ALL_FAILED
    ensures Run(x, s, es).events == es
  {
    var before, last := es[..|es| - 1], es[|es| - 1];
    assert es == before + [last];
    if before != [] {
      StatusesTellDelivery(x, s, before);
    } else {
      assert Run(x, s, before) == s;
    }
  }

  /** From an undebited start, a chargeable send has exactly one debit if there was a delivery, and none otherwise. */
  lemma {:induction false} DebitedIfDelivered(x: Send, s: Store, es: seq<EventType>)
    requires s.events == [] && x.cost > 0 && Entries(s.account.ledger, Job(x.job)) == 0
    ensures Entries(Run(x, s, es).account.ledger, Job(x.job)) == if Delivery in es then 1 else 0
  {
    hide Entries, LedgerSum, HasEntry, Settlement;
    if es != [] {
      var before, last := es[..|es| - 1], es[|es| - 1];
      assert es == before + [last];
      DebitedIfDelivered(x, s, before);
      EventsAreKept(x, s, before);
      var a := Run(x, s, before).account;
      SettledHasOneEntry(a, x.job, x.cost);
    }
  }

  lemma {:induction false} EventsAreKept(x: Send, s: Store, es: seq<EventType>)
    requires s.events == []
    ensures Run(x, s, es).events == es
  {
    if es != [] {
      EventsAreKept(x, s, es[..|es| - 1]);
      assert es == es[..|es| - 1] + [es[|es| - 1]];
    }
  }

  /** A release is triggered at most once: exactly when the first event is not a delivery and the job had not
      failed before. */
  lemma {:induction false} ReleasedAtMostOnce(x: Send, s: Store, es: seq<EventType>)
    requires s.events == [] && es != []
    ensures Run(x, s, es).releases == s.releases + if es[0] != Delivery && s.row.job != JobStatus.Failed then 1 else 0
  {
    var before, last := es[..|es| - 1], es[|es| - 1];
    assert es == before + [last];
    if before == [] {
      assert Run(x, s, before) == s;
    } else {
      ReleasedAtMostOnce(x, s, before);
      StatusesTellDelivery(x, s, before);
    }
  }

  /** Statuses and debits do not depend on the order of the events. */
  lemma OrderDoesNotMatter(x: Send, s: Store, es: seq<EventType>, fs: seq<EventType>)
    requires multiset(es) == multiset(fs) && s.events == [] && x.cost > 0
    requires Entries(s.account.ledger, Job(x.job)) == 0
    ensures Run(x, s, es).row == Run(x, s, fs).row
    ensures Entries(Run(x, s, es).account.ledger, Job(x.job)) == Entries(Run(x, s, fs).account.ledger, Job(x.job))
  {
    assert Delivery in es <==> Delivery in multiset(es);
    assert Delivery in fs <==> Delivery in multiset(fs);
    assert |es| == |multiset(es)| && |fs| == |multiset(fs)|;
    DebitedIfDelivered(x, s, es);
    DebitedIfDelivered(x, s, fs);
    if es != [] {
      StatusesTellDelivery(x, s, es);
      StatusesTellDelivery(x, s, fs);
    }
  }

  /** The account does depend on it: a delivery that comes after a bounce is captured from credits that are
      reserved for other jobs. */
  lemma LateDeliveryTakesForeignCredits(x: Send, s: Store)
    requires s.events == [] && s.row.job != JobStatus.Failed && x.cost > 0
    requires !HasEntry(s.account.ledger, Job(x.job)) && s.account.reserved >= 2 * x.cost
    ensures Handled(x, Handled(x, s, Bounce), Delivery).account.reserved
            == Handled(x, Handled(x, s, Delivery), Bounce).account.reserved - x.cost
  {
    hide LedgerSum, HasEntry;
    AppendedHasEntry(s.account, Debit(x.job, x.cost));
  }

  // ----- the handler -----

  class Events {
    const x: Send
    const billing: TenantBilling
    var row: Row
    var events: seq<EventType>
    ghost var releases: nat

    constructor (x: Send, billing: TenantBilling, row: Row)
      ensures this.x == x && this.billing == billing && Value() == Store(row, [], billing.Value(), 0)
    {
      this.x, this.billing, this.row := x, billing, row;
      events, releases := [], 0;
    }

    ghost function Value(): Store
      reads this, billing
    {
      Store(row, events, billing.Value(), releases)
    }

    method HandleTerminalEvent(e: EventType)
      modifies this, billing
      ensures Value() == Handled(x, old(Value()), e)
    {
      hide Settlement, LedgerSum, HasEntry;
      events := events + [e];
      var job := row.job;
      var treatAsDelivered := e == Delivery || Delivery in events;
      if treatAsDelivered {
        if x.cost > 0 {
          SettleNow();
        }
      } else if job != JobStatus.Failed {
        releases := releases + 1;
        if x.cost > 0 {
          var released := billing.ReleaseTenantReservedCredits(x.cost);
        }
      }
      if treatAsDelivered {
        row := row.(message := Done);
        row := row.(job := JobStatus.Sent);
        row := row.(draft := Done);
      } else {
        row := row.(message := Broken);
        row := row.(job := JobStatus.Failed);
        row := row.(draft := Broken);
      }
    }

    method SettleNow()
      modifies billing
      ensures billing.Value() == Settlement(old(billing.Value()), x.job, x.cost)
    {
      billing.SettleOutboundUsageDebit(x.job, x.cost, 3, true);
    }
  }
}
