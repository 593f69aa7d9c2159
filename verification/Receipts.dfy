/** The life of one payment receipt: any number of confirmation requests, each of which may die at any await,
    share the receipt row, the ledger and a facilitator that answers as it likes. */
module Receipts {
  import opened Billing
  import opened Text

  datatype ReceiptStatus = Pending | Verified | Settled | Failed

  datatype Kind = Topup | Upgrade

  /** What never changes: the receipt, the credits it stands for, and whether it carries a payment proof. */
  datatype Terms = Terms(id: nat, kind: Kind, credits: nat, provable: bool)

  /** `stored` is the facilitator's settlement answer kept with the receipt: settled or not. */
  datatype Row = Row(status: ReceiptStatus, stored: Option<bool>)

  /** `again` tells whether a settlement was requested although a successful one was stored (history). */
  datatype Books = Books(row: Row, account: Account, again: bool)

  datatype Pc =
    | Look | Verify | WriteVerified | WriteFailed | RequestSettlement | WriteAccepted | WriteDeclined
    | ReadLedger | Append | ReconcileNew | ReconcileOld | WriteSettled | Done

  /** A request and the receipt as it last saw it. */
  datatype Request = Request(pc: Pc, seen: Row)

  const FRESH := Request(Look, Row(Pending, None))

  function To(q: Request, pc: Pc): Request {
    q.(pc := pc)
  }

  function WithRow(b: Books, row: Row): Books {
    b.(row := row)
  }

  /** After a row is written, the request goes on with what it wrote. */
  function Wrote(b: Books, row: Row, pc: Pc): (Books, Request) {
    (WithRow(b, row), Request(pc, row))
  }

  /** Where a request goes with the receipt it has read. */
  function Route(t: Terms, seen: Row): Pc {
    if seen.status == Failed then Done
    else if seen.status == Settled then ReadLedger
    else if !t.provable then Done
    else if seen.status == Pending then Verify
    else if seen.stored == Some(true) then ReadLedger
    else RequestSettlement
  }

  /** The next operation of a request. `yes` is the facilitator's answer where it is asked. */
  function Advance(t: Terms, b: Books, q: Request, yes: bool): (Books, Request) {
    match q.pc
    case Look => (b, Request(Route(t, b.row), b.row))
    case Verify => (b, To(q, if yes then WriteVerified else WriteFailed))
    case WriteVerified => Wrote(b, Row(Verified, q.seen.stored), RequestSettlement)
    case WriteFailed => Wrote(b, Row(Failed, q.seen.stored), Done)
    case RequestSettlement =>
      (b.(again := b.again || b.row.stored == Some(true)), To(q, if yes then WriteAccepted else WriteDeclined))
    case WriteAccepted => Wrote(b, Row(Verified, Some(true)), ReadLedger)
    case WriteDeclined => Wrote(b, Row(Verified, Some(false)), Done)
    case ReadLedger =>
      (b, To(q, if q.seen.status == Settled && !HasEntry(b.account.ledger, Receipt(t.id)) then Done
                else if !Grants(t) then Done
                else if HasEntry(b.account.ledger, Receipt(t.id)) then ReconcileOld
                else Append))
    case Append => (b.(account := Appended(b.account, Entry(Receipt(t.id), t.credits))), To(q, ReconcileNew))
    case ReconcileNew => (b.(account := Reconciled(b.account)), To(q, WriteSettled))
    case ReconcileOld =>
      (b.(account := Reconciled(b.account)), To(q, if q.seen.status == Settled then Done else WriteSettled))
    case WriteSettled => Wrote(b, Row(Settled, q.seen.stored), Done)
    case Done => (b, q)
  }

  /** An upgrade without credits is never finalized. */
  predicate Grants(t: Terms) {
    t.kind == Topup || t.credits > 0
  }

  // ----- runs -----

  datatype State = State(books: Books, requests: map<nat, Request>)

  datatype Action =
    | Arrive(id: nat)
    | Step(id: nat, yes: bool)
    | Die(id: nat)
    | Elsewhere(e: Entry)

  predicate Live(s: State) {
    exists id | id in s.requests :: s.requests[id].pc != Done
  }

  function Apply(t: Terms, s: State, a: Action): State {
    match a
    case Arrive(id) => if id in s.requests then s else s.(requests := s.requests[id := FRESH])
    case Step(id, yes) =>
      if id !in s.requests then s
      else
        var r := Advance(t, s.books, s.requests[id], yes);
        State(r.0, s.requests[id := r.1])
    case Die(id) => if id in s.requests then s.(requests := s.requests[id := To(s.requests[id], Done)]) else s
    case Elsewhere(e) =>
      if e.reference == Receipt(t.id) then s else s.(books := s.books.(account := Appended(s.books.account, e)))
  }

  function Run(t: Terms, s: State, actions: seq<Action>): State
    decreases |actions|
  {
    if actions == [] then s else Run(t, Apply(t, s, actions[0]), actions[1..])
  }

  predicate Initial(t: Terms, s: State) {
    s.requests == map[] && s.books.row == Row(Pending, None) && !s.books.again
    && Entries(s.books.account.ledger, Receipt(t.id)) == 0
  }

  // ----- whatever the interleaving -----

  predicate Granted(t: Terms, b: Books) {
    HasEntry(b.account.ledger, Receipt(t.id))
  }

  /** At most one entry, for the exact amount, and no settled receipt without it. */
  ghost predicate GrantInv(t: Terms, b: Books) {
    && Entries(b.account.ledger, Receipt(t.id)) <= 1
    && (forall i :: 0 <= i < |b.account.ledger| && b.account.ledger[i].reference == Receipt(t.id) ==>
          b.account.ledger[i].creditsDelta == t.credits)
    && (b.row.status == Settled ==> Granted(t, b))
  }

  predicate RequestInv(t: Terms, b: Books, q: Request) {
    q.seen.status == Settled || q.pc == ReconcileNew || q.pc == ReconcileOld || q.pc == WriteSettled ==> Granted(t, b)
  }

  ghost predicate Inv(t: Terms, s: State) {
    GrantInv(t, s.books) && forall id :: id in s.requests ==> RequestInv(t, s.books, s.requests[id])
  }

  lemma AppendKeeps(t: Terms, b: Books, e: Entry)
    requires GrantInv(t, b) && (e.reference == Receipt(t.id) ==> e.creditsDelta == t.credits)
    ensures var r := b.(account := Appended(b.account, e));
            GrantInv(t, r) && (Granted(t, b) ==> Granted(t, r)) && (e.reference == Receipt(t.id) ==> Granted(t, r))
  {
    hide Entries, LedgerSum;
    HasEntryCounts(b.account.ledger, Receipt(t.id));
    AppendedLedger(b.account, e, Receipt(t.id));
    AppendedHasEntry(b.account, e);
    if Granted(t, b) {
      var i :| 0 <= i < |b.account.ledger| && b.account.ledger[i].reference == Receipt(t.id);
      assert Appended(b.account, e).ledger[i] == b.account.ledger[i];
    }
  }

  lemma AdvanceKeeps(t: Terms, b: Books, q: Request, yes: bool)
    requires GrantInv(t, b) && RequestInv(t, b, q)
    ensures var r := Advance(t, b, q, yes);
            GrantInv(t, r.0) && RequestInv(t, r.0, r.1) && (Granted(t, b) ==> Granted(t, r.0))
  {
    hide HasEntry, Appended, Entries, LedgerSum;
    if q.pc == Append {
      AppendKeeps(t, b, Entry(Receipt(t.id), t.credits));
    }
  }

  lemma ApplyKeeps(t: Terms, s: State, a: Action)
    requires Inv(t, s)
    ensures Inv(t, Apply(t, s, a))
  {
    hide GrantInv, Granted, Advance, Appended;
    match a
    case Step(id, yes) =>
      if id in s.requests {
        AdvanceKeeps(t, s.books, s.requests[id], yes);
      }
    case Elsewhere(e) => if e.reference != Receipt(t.id) { AppendKeeps(t, s.books, e); }
    case _ =>
  }

  lemma {:induction false} RunKeeps(t: Terms, s: State, actions: seq<Action>)
    requires Inv(t, s)
    ensures Inv(t, Run(t, s, actions))
    decreases |actions|
  {
    hide Inv, Apply;
    if actions != [] {
      ApplyKeeps(t, s, actions[0]);
      RunKeeps(t, Apply(t, s, actions[0]), actions[1..]);
    }
  }

  /** Requests may overlap and die as they like: a receipt never has more than one ledger entry, that entry is
      for exactly its credits, and a settled receipt has it. */
  lemma GrantedAtMostOnce(t: Terms, s: State, actions: seq<Action>)
    requires Initial(t, s)
    ensures var b := Run(t, s, actions).books;
            Entries(b.account.ledger, Receipt(t.id)) <= 1
            && (forall i :: 0 <= i < |b.account.ledger| && b.account.ledger[i].reference == Receipt(t.id) ==>
                  b.account.ledger[i].creditsDelta == t.credits)
            && (b.row.status == Settled ==> HasEntry(b.account.ledger, Receipt(t.id)))
  {
    hide Run, Entries, HasEntry;
    InitialInv(t, s);
    RunKeeps(t, s, actions);
  }

  lemma InitialInv(t: Terms, s: State)
    requires Initial(t, s)
    ensures Inv(t, s)
  {
    NoEntryCounts(s.books.account.ledger, Receipt(t.id));
  }

  lemma NoEntryCounts(ledger: seq<Entry>, r: Reference)
    requires Entries(ledger, r) == 0
    ensures forall i :: 0 <= i < |ledger| ==> ledger[i].reference != r
  {
    HasEntryCounts(ledger, r);
  }

  // ----- one request after the other -----

  /** No request begins while another is under way. */
  predicate Sequential(t: Terms, s: State, actions: seq<Action>)
    decreases |actions|
  {
    actions == []
    || ((actions[0].Arrive? ==> !Live(s)) && Sequential(t, Apply(t, s, actions[0]), actions[1..]))
  }

  /** Nothing is granted before the facilitator's settlement is stored, and from then on the receipt only
      waits to be settled. */
  predicate StoredInv(t: Terms, b: Books) {
    && !b.again
    && (Granted(t, b) ==> b.row.stored == Some(true))
    && (b.row.stored == Some(true) ==> b.row.status == Verified || b.row.status == Settled)
    && (b.row.status == Settled ==> b.row.stored == Some(true))
  }

  /** The request under way knows the receipt as it is. */
  predicate CurrentInv(t: Terms, b: Books, q: Request) {
    q.pc == Done || q.pc == Look ||
    (&& q.seen == b.row
     && (q.pc == Verify || q.pc == WriteVerified || q.pc == WriteFailed ==> b.row.status == Pending)
     && (q.pc == RequestSettlement || q.pc == WriteAccepted || q.pc == WriteDeclined ==>
           b.row.status == Verified && b.row.stored != Some(true))
     && (q.pc == ReadLedger || q.pc == Append || q.pc == ReconcileNew || q.pc == ReconcileOld || q.pc == WriteSettled
         ==> b.row.stored == Some(true))
     && (q.pc == Append ==> !Granted(t, b) && b.row.status == Verified))
  }

  ghost predicate OneAtATime(s: State) {
    forall i, j :: i in s.requests && j in s.requests && s.requests[i].pc != Done && s.requests[j].pc != Done ==> i == j
  }

  ghost predicate SeqInv(t: Terms, s: State) {
    StoredInv(t, s.books) && OneAtATime(s) && forall id :: id in s.requests ==> CurrentInv(t, s.books, s.requests[id])
  }

  lemma AdvanceStaysCurrent(t: Terms, b: Books, q: Request, yes: bool)
    requires GrantInv(t, b) && RequestInv(t, b, q) && StoredInv(t, b) && CurrentInv(t, b, q)
    ensures var r := Advance(t, b, q, yes);
            StoredInv(t, r.0) && CurrentInv(t, r.0, r.1) && (q.pc == Done ==> r == (b, q))
  {
    hide HasEntry, Entries, LedgerSum;
  }

  lemma StepStaysCurrent(t: Terms, s: State, a: Action)
    requires Inv(t, s) && SeqInv(t, s) && (a.Arrive? ==> !Live(s))
    ensures SeqInv(t, Apply(t, s, a))
  {
    hide GrantInv, StoredInv, Granted, Advance, Appended;
    match a
    case Step(id, yes) =>
      if id in s.requests {
        AdvanceStaysCurrent(t, s.books, s.requests[id], yes);
      }
    case Elsewhere(e) => if e.reference != Receipt(t.id) { ElsewhereKeeps(t, s.books, e); }
    case _ =>
  }

  lemma ElsewhereKeeps(t: Terms, b: Books, e: Entry)
    requires GrantInv(t, b) && StoredInv(t, b) && e.reference != Receipt(t.id)
    ensures var r := b.(account := Appended(b.account, e)); StoredInv(t, r) && (Granted(t, r) <==> Granted(t, b))
  {
    hide Entries, LedgerSum;
    AppendedReferences(b.account, e, Receipt(t.id));
  }

  lemma AppendedReferences(a: Account, e: Entry, r: Reference)
    requires e.reference != r
    ensures HasEntry(Appended(a, e).ledger, r) <==> HasEntry(a.ledger, r)
  {
    if i :| 0 <= i < |a.ledger| && a.ledger[i].reference == r {
      assert Appended(a, e).ledger[i] == a.ledger[i];
    }
  }

  lemma {:induction false} SequentialRunKeeps(t: Terms, s: State, actions: seq<Action>)
    requires Inv(t, s) && SeqInv(t, s) && Sequential(t, s, actions)
    ensures Inv(t, Run(t, s, actions)) && SeqInv(t, Run(t, s, actions))
    decreases |actions|
  {
    hide Apply, Inv, SeqInv, Live;
    if actions != [] {
      ApplyKeeps(t, s, actions[0]);
      StepStaysCurrent(t, s, actions[0]);
      SequentialRunKeeps(t, Apply(t, s, actions[0]), actions[1..]);
    }
  }

  /** One request after the other, each dying wherever it likes: a pending or failed receipt has no ledger
      entry, a settled one has it, and a settlement is never requested again once a successful one is stored. */
  lemma SequentialRequests(t: Terms, s: State, actions: seq<Action>)
    requires Initial(t, s) && Sequential(t, s, actions)
    ensures var b := Run(t, s, actions).books;
            !b.again && (b.row.status == Pending || b.row.status == Failed ==> !Granted(t, b))
            && (b.row.status == Settled ==> Granted(t, b))
  {
    hide Run, Sequential, Entries, Granted;
    InitialInv(t, s);
    InitialIsCurrent(t, s);
    SequentialRunKeeps(t, s, actions);
    StatusTellsGrant(t, Run(t, s, actions).books);
  }

  lemma StatusTellsGrant(t: Terms, b: Books)
    requires GrantInv(t, b) && StoredInv(t, b)
    ensures b.row.status == Pending || b.row.status == Failed ==> !Granted(t, b)
    ensures b.row.status == Settled ==> Granted(t, b)
  {
  }

  // ----- a request that is left alone -----

  /** `n` operations of one request; `yes` is what the facilitator answers at each call. */
  function AdvanceN(t: Terms, b: Books, q: Request, yes: Pc -> bool, n: nat): (Books, Request)
    decreases n
  {
    if n == 0 then (b, q)
    else var r := AdvanceN(t, b, q, yes, n - 1); Advance(t, r.0, r.1, yes(r.1.pc))
  }

  function Rank(pc: Pc): nat {
    match pc
    case Look => 9
    case Verify => 8
    case WriteVerified => 7
    case WriteFailed => 1
    case RequestSettlement => 6
    case WriteAccepted => 5
    case WriteDeclined => 1
    case ReadLedger => 4
    case Append => 3
    case ReconcileNew => 2
    case ReconcileOld => 2
    case WriteSettled => 1
    case Done => 0
  }

  predicate Settleable(t: Terms, b: Books) {
    t.provable && Grants(t) && b.row.status != Failed
  }

  /** On the way to a settled receipt, provided the facilitator agrees where it is still asked. */
  ghost predicate OnTrack(t: Terms, b: Books, q: Request, yes: Pc -> bool) {
    && Settleable(t, b) && GrantInv(t, b) && RequestInv(t, b, q) && StoredInv(t, b) && CurrentInv(t, b, q)
    && ((yes(Verify) && yes(RequestSettlement)) || b.row.stored == Some(true))
    && q.pc != WriteFailed && q.pc != WriteDeclined
    && (q.pc == WriteSettled ==> Drift(b.account) == 0)
    && (q.pc == Done ==> b.row.status == Settled && Drift(b.account) == 0)
  }

  lemma AdvanceStaysOnTrack(t: Terms, b: Books, q: Request, yes: Pc -> bool)
    requires OnTrack(t, b, q, yes)
    ensures var r := Advance(t, b, q, yes(q.pc));
            OnTrack(t, r.0, r.1, yes) && (q.pc != Done ==> Rank(r.1.pc) < Rank(q.pc))
  {
    hide HasEntry, Appended, Entries, LedgerSum, Drift;
    AdvanceKeeps(t, b, q, yes(q.pc));
    AdvanceStaysCurrent(t, b, q, yes(q.pc));
  }

  lemma {:induction false} StaysOnTrack(t: Terms, b: Books, q: Request, yes: Pc -> bool, n: nat)
    requires OnTrack(t, b, q, yes)
    ensures var r := AdvanceN(t, b, q, yes, n);
            OnTrack(t, r.0, r.1, yes) && (r.1.pc == Done || Rank(r.1.pc) + n <= Rank(q.pc))
    decreases n
  {
    hide OnTrack, Advance, Rank;
    if n > 0 {
      StaysOnTrack(t, b, q, yes, n - 1);
      var r := AdvanceN(t, b, q, yes, n - 1);
      AdvanceStaysOnTrack(t, r.0, r.1, yes);
      DoneIsDone(t, r.0, r.1, yes(r.1.pc));
    }
  }

  lemma DoneIsDone(t: Terms, b: Books, q: Request, yes: bool)
    ensures q.pc == Done ==> Advance(t, b, q, yes) == (b, q)
  {
  }

  /** Wherever earlier requests died, one more that is left alone settles the receipt, with one ledger entry
      and an account that agrees with the ledger; once a successful settlement is stored, whatever the
      facilitator would answer. */
  lemma RetryConverges(t: Terms, s: State, actions: seq<Action>, yes: Pc -> bool)
    requires Initial(t, s) && Sequential(t, s, actions)
    requires var now := Run(t, s, actions);
             !Live(now) && Settleable(t, now.books)
             && ((yes(Verify) && yes(RequestSettlement)) || now.books.row.stored == Some(true))
    ensures var r := AdvanceN(t, Run(t, s, actions).books, FRESH, yes, 9);
            r.1.pc == Done && r.0.row.status == Settled && Entries(r.0.account.ledger, Receipt(t.id)) == 1
            && Drift(r.0.account) == 0 && !r.0.again
  {
    hide Run, Sequential, Live, Settleable, AdvanceN, Entries, Drift;
    InitialInv(t, s);
    InitialIsCurrent(t, s);
    SequentialRunKeeps(t, s, actions);
    RequestConverges(t, Run(t, s, actions), yes);
  }

  lemma RequestConverges(t: Terms, s: State, yes: Pc -> bool)
    requires Inv(t, s) && SeqInv(t, s) && !Live(s) && Settleable(t, s.books)
    requires (yes(Verify) && yes(RequestSettlement)) || s.books.row.stored == Some(true)
    ensures var r := AdvanceN(t, s.books, FRESH, yes, 9);
            r.1.pc == Done && r.0.row.status == Settled && Entries(r.0.account.ledger, Receipt(t.id)) == 1
            && Drift(r.0.account) == 0 && !r.0.again
  {
    hide Advance, AdvanceN, Entries, Drift, LedgerSum;
    StaysOnTrack(t, s.books, FRESH, yes, 9);
    HasEntryCounts(AdvanceN(t, s.books, FRESH, yes, 9).0.account.ledger, Receipt(t.id));
  }

  /** Operations of one request are steps of a run. */
  function Actions(t: Terms, b: Books, id: nat, yes: Pc -> bool, n: nat): seq<Action>
    decreases n
  {
    if n == 0 then [Arrive(id)]
    else Actions(t, b, id, yes, n - 1) + [Step(id, yes(AdvanceN(t, b, FRESH, yes, n - 1).1.pc))]
  }

  lemma {:induction false} RunOfSum(t: Terms, s: State, a: seq<Action>, b: seq<Action>)
    ensures Run(t, s, a + b) == Run(t, Run(t, s, a), b)
    decreases |a|
  {
    hide Apply;
    if a == [] {
      assert a + b == b;
    } else {
      assert (a + b)[0] == a[0] && (a + b)[1..] == a[1..] + b;
      RunOfSum(t, Apply(t, s, a[0]), a[1..], b);
    }
  }

  lemma RunOfOne(t: Terms, s: State, a: Action)
    ensures Run(t, s, [a]) == Apply(t, s, a)
  {
    hide Apply;
    assert [a][1..] == [];
  }

  lemma {:induction false} ActionsRun(t: Terms, s: State, id: nat, yes: Pc -> bool, n: nat)
    requires id !in s.requests
    ensures var r := AdvanceN(t, s.books, FRESH, yes, n);
            Run(t, s, Actions(t, s.books, id, yes, n)) == State(r.0, s.requests[id := r.1])
    decreases n
  {
    hide Run, Advance;
    if n == 0 {
      RunOfOne(t, s, Arrive(id));
    } else {
      ActionsRun(t, s, id, yes, n - 1);
      var before := Actions(t, s.books, id, yes, n - 1);
      var last := Step(id, yes(AdvanceN(t, s.books, FRESH, yes, n - 1).1.pc));
      RunOfSum(t, s, before, [last]);
      RunOfOne(t, Run(t, s, before), last);
    }
  }

  // ----- what a request that is left alone comes to, for every answer -----

  lemma {:induction false} AdvanceFirst(t: Terms, b: Books, q: Request, yes: Pc -> bool, n: nat)
    requires n > 0
    ensures var r := Advance(t, b, q, yes(q.pc)); AdvanceN(t, b, q, yes, n) == AdvanceN(t, r.0, r.1, yes, n - 1)
    decreases n
  {
    hide Advance;
    if n > 1 {
      AdvanceFirst(t, b, q, yes, n - 1);
    } else {
      OneAdvance(t, b, q, yes, 1);
      OneAdvance(t, Advance(t, b, q, yes(q.pc)).0, Advance(t, b, q, yes(q.pc)).1, yes, 0);
    }
  }

  lemma {:induction false} DoneStays(t: Terms, b: Books, q: Request, yes: Pc -> bool, n: nat)
    requires q.pc == Done
    ensures AdvanceN(t, b, q, yes, n) == (b, q)
    decreases n
  {
    hide Advance;
    if n > 0 {
      DoneStays(t, b, q, yes, n - 1);
      DoneIsDone(t, b, q, yes(q.pc));
    }
  }

  /** A settlement will be asked for: the receipt is verified, now or before, and none is stored. */
  predicate Asks(t: Terms, row: Row, yes: Pc -> bool) {
    t.provable
    && ((row.status == Pending && yes(Verify)) || (row.status == Verified && row.stored != Some(true)))
  }

  /** The receipt is ready to be finalized once the facilitator has been asked what there is to ask. */
  predicate Finalizes(t: Terms, row: Row, yes: Pc -> bool) {
    (Asks(t, row, yes) && yes(RequestSettlement))
    || (t.provable && row.status == Verified && row.stored == Some(true))
  }

  function LoneRow(t: Terms, row: Row, yes: Pc -> bool): Row {
    if Finalizes(t, row, yes) then Row(if Grants(t) then Settled else Verified, Some(true))
    else if Asks(t, row, yes) then Row(Verified, Some(false))
    else if t.provable && row.status == Pending then Row(Failed, row.stored)
    else row
  }

  /** The receipt and the account after a lone request: credits are appended and the account is reconciled exactly
      when the receipt is finalized, and only reconciled when it was settled before. */
  function LoneBooks(t: Terms, b: Books, yes: Pc -> bool): Books {
    var account :=
      if Grants(t) && Finalizes(t, b.row, yes) then Reconciled(Appended(b.account, Entry(Receipt(t.id), t.credits)))
      else if Grants(t) && b.row.status == Settled && Granted(t, b) then Reconciled(b.account)
      else b.account;
    Books(LoneRow(t, b.row, yes), account, b.again || (Asks(t, b.row, yes) && b.row.stored == Some(true)))
  }

  /** Once a request is done, more operations change nothing. */
  lemma {:induction false} EndedEarly(t: Terms, b: Books, yes: Pc -> bool, m: nat, n: nat)
    requires m <= n && AdvanceN(t, b, FRESH, yes, m).1.pc == Done
    ensures AdvanceN(t, b, FRESH, yes, n) == AdvanceN(t, b, FRESH, yes, m)
    decreases n
  {
    hide Advance;
    if m < n {
      EndedEarly(t, b, yes, m, n - 1);
      var r := AdvanceN(t, b, FRESH, yes, m);
      DoneIsDone(t, r.0, r.1, yes(r.1.pc));
    }
  }

  /** From the ledger lookup on. */
  lemma FinalizationEnds(t: Terms, b: Books, q: Request, yes: Pc -> bool, n: nat)
    requires n >= 4 && q.pc == ReadLedger
    ensures var r := AdvanceN(t, b, q, yes, n);
            r.1.pc == Done && r.0.again == b.again
            && if !Grants(t) || (q.seen.status == Settled && !Granted(t, b)) then r.0 == b
               else
                 r.0.account == Reconciled(Appended(b.account, Entry(Receipt(t.id), t.credits)))
                 && r.0.row == (if q.seen.status == Settled then b.row else Row(Settled, q.seen.stored))
  {
    hide AdvanceN, HasEntry, Reconciled;
    AdvanceFirst(t, b, q, yes, n);
    if !Grants(t) || (q.seen.status == Settled && !Granted(t, b)) {
      DoneStays(t, b, To(q, Done), yes, n - 1);
    } else if Granted(t, b) {
      OldEntryEnds(t, b, To(q, ReconcileOld), yes, n - 1);
    } else {
      hide Appended;
      var b1 := b.(account := Appended(b.account, Entry(Receipt(t.id), t.credits)));
      AdvanceFirst(t, b, To(q, Append), yes, n - 1);
      AdvanceFirst(t, b1, To(q, ReconcileNew), yes, n - 2);
      var b2 := b1.(account := Reconciled(b1.account));
      WriteSettledEnds(t, b2, To(q, WriteSettled), yes, n - 3);
    }
  }

  lemma OldEntryEnds(t: Terms, b: Books, q: Request, yes: Pc -> bool, n: nat)
    requires n >= 2 && q.pc == ReconcileOld && Granted(t, b)
    ensures var r := AdvanceN(t, b, q, yes, n);
            r.1.pc == Done && r.0.again == b.again && r.0.account == Reconciled(b.account)
            && r.0.row == (if q.seen.status == Settled then b.row else Row(Settled, q.seen.stored))
  {
    hide AdvanceN, HasEntry, Reconciled, Appended;
    AdvanceFirst(t, b, q, yes, n);
    var b1 := b.(account := Reconciled(b.account));
    if q.seen.status == Settled {
      DoneStays(t, b1, To(q, Done), yes, n - 1);
    } else {
      WriteSettledEnds(t, b1, To(q, WriteSettled), yes, n - 1);
    }
  }

  lemma WriteSettledEnds(t: Terms, b: Books, q: Request, yes: Pc -> bool, n: nat)
    requires n >= 1 && q.pc == WriteSettled
    ensures var r := AdvanceN(t, b, q, yes, n);
            r.1.pc == Done && r.0 == WithRow(b, Row(Settled, q.seen.stored))
  {
    hide AdvanceN, HasEntry, Appended;
    AdvanceFirst(t, b, q, yes, n);
    DoneStays(t, WithRow(b, Row(Settled, q.seen.stored)), Request(Done, Row(Settled, q.seen.stored)), yes, n - 1);
  }

  /** From the settlement request on. */
  lemma SettlementEnds(t: Terms, b: Books, q: Request, yes: Pc -> bool, n: nat)
    requires n >= 6 && q.pc == RequestSettlement
    ensures var r := AdvanceN(t, b, q, yes, n);
            r.1.pc == Done && r.0.again == (b.again || b.row.stored == Some(true))
            && (if !yes(RequestSettlement) then r.0.account == b.account && r.0.row == Row(Verified, Some(false))
                else if !Grants(t) then r.0.account == b.account && r.0.row == Row(Verified, Some(true))
                else r.0.account == Reconciled(Appended(b.account, Entry(Receipt(t.id), t.credits)))
                     && r.0.row == Row(Settled, Some(true)))
  {
    hide AdvanceN, HasEntry, Appended, Reconciled;
    AdvanceFirst(t, b, q, yes, n);
    var asked := b.(again := b.again || b.row.stored == Some(true));
    if yes(RequestSettlement) {
      AdvanceFirst(t, asked, To(q, WriteAccepted), yes, n - 1);
      var accepted := Row(Verified, Some(true));
      FinalizationEnds(t, WithRow(asked, accepted), Request(ReadLedger, accepted), yes, n - 2);
    } else {
      AdvanceFirst(t, asked, To(q, WriteDeclined), yes, n - 1);
      var declined := Row(Verified, Some(false));
      DoneStays(t, WithRow(asked, declined), Request(Done, declined), yes, n - 2);
    }
  }

  /** A request that is left alone ends, and what it leaves is told by the receipt it found and the two answers of
      the facilitator. */
  lemma LoneRequest(t: Terms, b: Books, yes: Pc -> bool, n: nat)
    requires n >= 9
    ensures var r := AdvanceN(t, b, FRESH, yes, n); r.1.pc == Done && r.0 == LoneBooks(t, b, yes)
  {
    hide AdvanceN, HasEntry, Appended, Reconciled;
    AdvanceFirst(t, b, FRESH, yes, n);
    var q := Request(Route(t, b.row), b.row);
    match q.pc
    case Done => DoneStays(t, b, q, yes, n - 1);
    case ReadLedger =>
      FinalizationEnds(t, b, q, yes, n - 1);
      OldEntryStays(t, b);
    case RequestSettlement => SettlementEnds(t, b, q, yes, n - 1);
    case Verify =>
      AdvanceFirst(t, b, q, yes, n - 1);
      if yes(Verify) {
        AdvanceFirst(t, b, To(q, WriteVerified), yes, n - 2);
        var verified := Row(Verified, b.row.stored);
        SettlementEnds(t, WithRow(b, verified), Request(RequestSettlement, verified), yes, n - 3);
      } else {
        AdvanceFirst(t, b, To(q, WriteFailed), yes, n - 2);
        var failed := Row(ReceiptStatus.Failed, b.row.stored);
        DoneStays(t, WithRow(b, failed), Request(Done, failed), yes, n - 3);
      }
  }

  lemma DoneIsLone(t: Terms, b: Books, yes: Pc -> bool, m: nat)
    requires AdvanceN(t, b, FRESH, yes, m).1.pc == Done
    ensures AdvanceN(t, b, FRESH, yes, m).0 == LoneBooks(t, b, yes)
  {
    hide AdvanceN, LoneBooks;
    EndedEarly(t, b, yes, m, m + 9);
    LoneRequest(t, b, yes, m + 9);
  }

  lemma OldEntryStays(t: Terms, b: Books)
    ensures Granted(t, b) ==> Appended(b.account, Entry(Receipt(t.id), t.credits)) == b.account
  {
    hide HasEntry;
  }

  /** A settlement that is declined leaves the receipt verified with the refusal stored and the account as it was; the
      receipt can still be settled. */
  lemma DeclinedStaysOpen(t: Terms, b: Books, yes: Pc -> bool, n: nat)
    requires n >= 9 && t.provable && !yes(RequestSettlement)
    requires (b.row.status == Pending && yes(Verify)) || (b.row.status == Verified && b.row.stored != Some(true))
    ensures var r := AdvanceN(t, b, FRESH, yes, n);
            r.1.pc == Done && r.0.row.status == Verified && r.0.row.stored == Some(false)
            && r.0.account == b.account && (Granted(t, r.0) <==> Granted(t, b)) && (Grants(t) ==> Settleable(t, r.0))
  {
    hide AdvanceN, HasEntry;
    LoneRequest(t, b, yes, n);
  }

  /** A verification that is refused fails a pending receipt, and grants nothing. */
  lemma RefusedFails(t: Terms, b: Books, yes: Pc -> bool, n: nat)
    requires n >= 9 && t.provable && !yes(Verify) && b.row.status == Pending
    ensures var r := AdvanceN(t, b, FRESH, yes, n);
            r.1.pc == Done && r.0.row.status == Failed && r.0.account == b.account
  {
    hide AdvanceN;
    LoneRequest(t, b, yes, n);
  }

  /** However many requests came before and were declined or died, one more with an agreeing facilitator settles a
      receipt whose last settlement was declined. */
  lemma DeclinedThenSettles(t: Terms, s: State, actions: seq<Action>, no: Pc -> bool, yes: Pc -> bool)
    requires Initial(t, s) && Sequential(t, s, actions) && t.provable && Grants(t)
    requires var now := Run(t, s, actions);
             !Live(now) && now.books.row.stored != Some(true)
             && (now.books.row.status == Verified || (now.books.row.status == Pending && no(Verify)))
    requires !no(RequestSettlement) && yes(Verify) && yes(RequestSettlement)
    ensures var declined := AdvanceN(t, Run(t, s, actions).books, FRESH, no, 9).0;
            var r := AdvanceN(t, declined, FRESH, yes, 9);
            declined.row == Row(Verified, Some(false)) && !Granted(t, declined)
            && r.1.pc == Done && r.0.row.status == Settled && Entries(r.0.account.ledger, Receipt(t.id)) == 1
            && Drift(r.0.account) == 0 && !r.0.again
  {
    hide Run, Sequential, Live, AdvanceN, Entries, Drift, HasEntry;
    InitialInv(t, s);
    InitialIsCurrent(t, s);
    SequentialRunKeeps(t, s, actions);
    var b := Run(t, s, actions).books;
    DeclinedStaysOpen(t, b, no, 9);
    LoneRequest(t, b, no, 9);
    var declined := AdvanceN(t, b, FRESH, no, 9).0;
    assert !Live(State(declined, map[])) by { NobodyIsLive(State(declined, map[])); }
    RequestConverges(t, State(declined, map[]), yes);
  }

  lemma NobodyIsLive(s: State)
    requires s.requests == map[]
    ensures !Live(s)
  {
  }

  // ----- what makes a receipt fail -----

  /** Some verification was refused during the run. */
  predicate Refused(t: Terms, s: State, actions: seq<Action>)
    decreases |actions|
  {
    actions != []
    && ((actions[0].Step? && actions[0].id in s.requests && s.requests[actions[0].id].pc == Verify && !actions[0].yes)
        || Refused(t, Apply(t, s, actions[0]), actions[1..]))
  }

  ghost predicate Unrefused(s: State) {
    s.books.row.status != Failed && forall id :: id in s.requests ==> s.requests[id].pc != WriteFailed
  }

  lemma StepIsUnrefused(t: Terms, s: State, a: Action)
    requires Unrefused(s) && !(a.Step? && a.id in s.requests && s.requests[a.id].pc == Verify && !a.yes)
    ensures Unrefused(Apply(t, s, a))
  {
    hide HasEntry, Appended, Reconciled;
  }

  lemma {:induction false} RunIsUnrefused(t: Terms, s: State, actions: seq<Action>)
    requires Unrefused(s) && !Refused(t, s, actions)
    ensures Unrefused(Run(t, s, actions))
    decreases |actions|
  {
    hide Apply, Unrefused;
    if actions != [] {
      StepIsUnrefused(t, s, actions[0]);
      RunIsUnrefused(t, Apply(t, s, actions[0]), actions[1..]);
    }
  }

  /** Whatever overlaps, dies or is declined: a receipt fails only if some verification of it was refused. */
  lemma FailedOnlyIfRefused(t: Terms, s: State, actions: seq<Action>)
    requires Initial(t, s) && Run(t, s, actions).books.row.status == Failed
    ensures Refused(t, s, actions)
  {
    hide Run, Refused;
    if !Refused(t, s, actions) {
      RunIsUnrefused(t, s, actions);
    }
  }

  /** Between the ledger entry and the reconcile the account lags the ledger by exactly the credits granted. */
  lemma CrashedFinalization(t: Terms, b: Books, q: Request, yes: bool)
    requires q.pc == Append && !Granted(t, b) && Drift(b.account) == 0
    ensures var r := Advance(t, b, q, yes);
            Drift(r.0.account) == 0 - t.credits && Drift(Advance(t, r.0, r.1, yes).0.account) == 0
  {
    AppendedLedger(b.account, Entry(Receipt(t.id), t.credits), Receipt(t.id));
  }

  // ----- how many requests may overlap -----

  function LiveIds(s: State): set<nat> {
    set id | id in s.requests && s.requests[id].pc != Done
  }

  /** A request arrives only while fewer than `k` are under way. */
  predicate AtMost(t: Terms, s: State, actions: seq<Action>, k: nat)
    decreases |actions|
  {
    actions == []
    || ((actions[0].Arrive? ==> |LiveIds(s)| < k) && AtMost(t, Apply(t, s, actions[0]), actions[1..], k))
  }

  lemma {:induction false} AtMostOneIsSequential(t: Terms, s: State, actions: seq<Action>, k: nat)
    requires AtMost(t, s, actions, k) && k <= 1
    ensures Sequential(t, s, actions)
    decreases |actions|
  {
    hide Apply;
    if actions != [] {
      if actions[0].Arrive? {
        assert LiveIds(s) == {};
        assert forall id :: id in s.requests && s.requests[id].pc != Done ==> id in LiveIds(s);
      }
      AtMostOneIsSequential(t, Apply(t, s, actions[0]), actions[1..], k);
    }
  }

  lemma {:induction false} AtMostOfSum(t: Terms, s: State, a: seq<Action>, b: seq<Action>, k: nat)
    requires AtMost(t, s, a, k) && AtMost(t, Run(t, s, a), b, k)
    ensures AtMost(t, s, a + b, k)
    decreases |a|
  {
    hide Apply, LiveIds;
    if a == [] {
      assert a + b == b;
    } else {
      assert (a + b)[0] == a[0] && (a + b)[1..] == a[1..] + b;
      AtMostOfSum(t, Apply(t, s, a[0]), a[1..], b, k);
    }
  }

  lemma StepIsAtMost(t: Terms, s: State, a: Action, k: nat)
    requires a.Arrive? ==> |LiveIds(s)| < k
    ensures AtMost(t, s, [a], k)
  {
    hide Apply, LiveIds;
    assert [a][1..] == [];
  }

  lemma {:induction false} ActionsAreAtMost(t: Terms, s: State, id: nat, yes: Pc -> bool, n: nat, k: nat)
    requires |LiveIds(s)| < k
    ensures AtMost(t, s, Actions(t, s.books, id, yes, n), k)
    decreases n
  {
    hide AtMost, Run, Advance, LiveIds;
    if n == 0 {
      StepIsAtMost(t, s, Arrive(id), k);
    } else {
      ActionsAreAtMost(t, s, id, yes, n - 1, k);
      var before := Actions(t, s.books, id, yes, n - 1);
      var last := Step(id, yes(AdvanceN(t, s.books, FRESH, yes, n - 1).1.pc));
      StepIsAtMost(t, Run(t, s, before), last, k);
      AtMostOfSum(t, s, before, [last], k);
    }
  }

  lemma FewLive(s: State, id: nat)
    requires s.requests.Keys <= {id}
    ensures |LiveIds(s)| <= 1
    ensures s.requests == map[] ==> |LiveIds(s)| == 0
  {
    assert LiveIds(s) <= {id};
    SubsetIsSmaller(LiveIds(s), {id});
    if s.requests == map[] {
      assert LiveIds(s) == {};
    }
  }

  /** Request 1 does `m` operations, then request 0 arrives and does `n`, then request 1 takes two more steps. */
  function Overlap(t: Terms, b: Books, yes: Pc -> bool, m: nat, n: nat): seq<Action> {
    Actions(t, b, 1, yes, m) + Actions(t, AdvanceN(t, b, FRESH, yes, m).0, 0, yes, n)
    + [Step(1, false)] + [Step(1, false)]
  }

  lemma OverlapRuns(t: Terms, s: State, yes: Pc -> bool, m: nat, n: nat)
    requires Initial(t, s)
    ensures var p := AdvanceN(t, s.books, FRESH, yes, m);
            var q := AdvanceN(t, p.0, FRESH, yes, n);
            var v := Advance(t, q.0, p.1, false);
            Run(t, s, Overlap(t, s.books, yes, m, n)).books == Advance(t, v.0, v.1, false).0
    ensures AtMost(t, s, Overlap(t, s.books, yes, m, n), 2)
  {
    hide Run, AtMost, Advance, Actions, AdvanceN, LiveIds, Initial;
    assert s.requests == map[] by { InitialIsIdle(t, s); }
    var p := AdvanceN(t, s.books, FRESH, yes, m);
    var first := Actions(t, s.books, 1, yes, m);
    var second := Actions(t, p.0, 0, yes, n);
    var s1 := Run(t, s, first);
    FewLive(s, 1);
    ActionsRun(t, s, 1, yes, m);
    ActionsAreAtMost(t, s, 1, yes, m, 2);
    FewLive(s1, 1);
    ActionsRun(t, s1, 0, yes, n);
    ActionsAreAtMost(t, s1, 0, yes, n, 2);
    RunOfSum(t, s, first, second);
    AtMostOfSum(t, s, first, second, 2);
    TwoSteps(t, s, first + second);
  }

  lemma InitialIsIdle(t: Terms, s: State)
    requires Initial(t, s)
    ensures s.requests == map[]
  {
  }

  lemma TwoSteps(t: Terms, s: State, actions: seq<Action>)
    requires AtMost(t, s, actions, 2) && 1 in Run(t, s, actions).requests
    ensures var r := Run(t, s, actions);
            var v := Advance(t, r.books, r.requests[1], false);
            Run(t, s, actions + [Step(1, false)] + [Step(1, false)]).books == Advance(t, v.0, v.1, false).0
    ensures AtMost(t, s, actions + [Step(1, false)] + [Step(1, false)], 2)
  {
    hide Run, AtMost, Advance, LiveIds;
    var a := Step(1, false);
    var r := Run(t, s, actions);
    RunOfSum(t, s, actions, [a]);
    RunOfSum(t, s, actions + [a], [a]);
    RunOfOne(t, r, a);
    RunOfOne(t, Apply(t, r, a), a);
    StepIsAtMost(t, r, a, 2);
    StepIsAtMost(t, Apply(t, r, a), a, 2);
    AtMostOfSum(t, s, actions, [a], 2);
    AtMostOfSum(t, s, actions + [a], [a], 2);
  }

  lemma OneAdvance(t: Terms, b: Books, q: Request, yes: Pc -> bool, n: nat)
    ensures AdvanceN(t, b, q, yes, 0) == (b, q)
    ensures n > 0 ==> AdvanceN(t, b, q, yes, n)
                      == Advance(t, AdvanceN(t, b, q, yes, n - 1).0, AdvanceN(t, b, q, yes, n - 1).1,
                                 yes(AdvanceN(t, b, q, yes, n - 1).1.pc))
  {
    hide Advance;
  }

  /** A request that saw the receipt pending marks it failed after another one has settled it and granted the
      credits. */
  lemma OverlapFailsSettledReceipt(t: Terms, s: State, yes: Pc -> bool)
    requires Initial(t, s) && t.provable && Grants(t) && yes(Verify) && yes(RequestSettlement)
    ensures var actions := Overlap(t, s.books, yes, 1, 9);
            var b := Run(t, s, actions).books;
            AtMost(t, s, actions, 2) && b.row.status == Failed && Granted(t, b)
  {
    hide Run, AtMost, Actions, AdvanceN, Entries, Drift, HasEntry, Appended;
    InitialInv(t, s);
    InitialIsCurrent(t, s);
    OneAdvance(t, s.books, FRESH, yes, 1);
    RequestConverges(t, s, yes);
    HasEntryCounts(AdvanceN(t, s.books, FRESH, yes, 9).0.account.ledger, Receipt(t.id));
    OverlapRuns(t, s, yes, 1, 9);
  }

  /** A request that has verified the receipt asks for its settlement after another one has stored a successful
      one. */
  lemma OverlapSettlesAgain(t: Terms, s: State, yes: Pc -> bool)
    requires Initial(t, s) && t.provable && yes(Verify) && yes(RequestSettlement)
    ensures var actions := Overlap(t, s.books, yes, 3, 3); AtMost(t, s, actions, 2) && Run(t, s, actions).books.again
  {
    hide Run, AtMost, Actions, AdvanceN, Overlap, Entries, Appended;
    VerifiedAfterThree(t, s.books, yes);
    AcceptedAfterThree(t, WithRow(s.books, Row(Verified, None)), yes);
    OverlapRuns(t, s, yes, 3, 3);
  }

  lemma VerifiedAfterThree(t: Terms, b: Books, yes: Pc -> bool)
    requires t.provable && yes(Verify) && b.row == Row(Pending, None)
    ensures AdvanceN(t, b, FRESH, yes, 3)
            == (WithRow(b, Row(Verified, None)), Request(RequestSettlement, Row(Verified, None)))
  {
    hide AdvanceN, Appended;
    OneAdvance(t, b, FRESH, yes, 1);
    OneAdvance(t, b, FRESH, yes, 2);
    OneAdvance(t, b, FRESH, yes, 3);
  }

  lemma AcceptedAfterThree(t: Terms, b: Books, yes: Pc -> bool)
    requires t.provable && yes(RequestSettlement) && b.row == Row(Verified, None)
    ensures AdvanceN(t, b, FRESH, yes, 3).0.row == Row(Verified, Some(true))
  {
    hide AdvanceN, Appended;
    OneAdvance(t, b, FRESH, yes, 1);
    OneAdvance(t, b, FRESH, yes, 2);
    OneAdvance(t, b, FRESH, yes, 3);
  }

  // ----- receipts that overlap cannot harm -----

  /** Nothing is ever granted for a receipt that carries no proof, or that stands for no credits. */
  ghost predicate IdleInv(t: Terms, s: State) {
    && (!Granted(t, s.books))
    && (!t.provable ==> s.books.row == Row(Pending, None) && !s.books.again)
    && (forall id :: id in s.requests ==> IdleRequest(t, s.requests[id]))
  }

  predicate IdleRequest(t: Terms, q: Request) {
    && (!t.provable ==> q.pc == Look || q.pc == Done)
    && (q.pc != Append && q.pc != ReconcileNew && q.pc != ReconcileOld && q.pc != WriteSettled)
  }

  lemma IdleStepKeeps(t: Terms, s: State, a: Action)
    requires IdleInv(t, s) && (!t.provable || !Grants(t))
    ensures IdleInv(t, Apply(t, s, a))
  {
    hide Granted, Appended;
    match a
    case Step(id, yes) =>
      if id in s.requests {
        IdleAdvanceKeeps(t, s.books, s.requests[id], yes);
      }
    case Elsewhere(e) => if e.reference != Receipt(t.id) { NothingGranted(t, s.books, e); }
    case _ =>
  }

  lemma NothingGranted(t: Terms, b: Books, e: Entry)
    requires e.reference != Receipt(t.id)
    ensures Granted(t, b.(account := Appended(b.account, e))) <==> Granted(t, b)
  {
    hide Appended;
    AppendedReferences(b.account, e, Receipt(t.id));
  }

  lemma IdleAdvanceKeeps(t: Terms, b: Books, q: Request, yes: bool)
    requires IdleRequest(t, q) && !Granted(t, b) && (!t.provable || !Grants(t))
    requires !t.provable ==> b.row == Row(Pending, None) && !b.again
    ensures var r := Advance(t, b, q, yes);
            IdleRequest(t, r.1) && !Granted(t, r.0) && (!t.provable ==> r.0.row == b.row && r.0.again == b.again)
  {
    hide HasEntry, Appended, Reconciled;
  }

  lemma {:induction false} IdleRunKeeps(t: Terms, s: State, actions: seq<Action>)
    requires IdleInv(t, s) && (!t.provable || !Grants(t))
    ensures IdleInv(t, Run(t, s, actions))
    decreases |actions|
  {
    hide IdleInv, Apply;
    if actions != [] {
      IdleStepKeeps(t, s, actions[0]);
      IdleRunKeeps(t, Apply(t, s, actions[0]), actions[1..]);
    }
  }

  lemma InitialIsHarmless(t: Terms, s: State)
    requires Initial(t, s)
    ensures IdleInv(t, s)
  {
    NoEntryCounts(s.books.account.ledger, Receipt(t.id));
  }

  /** A pending or failed receipt has no ledger entry. */
  predicate Clean(t: Terms, b: Books) {
    b.row.status == Pending || b.row.status == Failed ==> !Granted(t, b)
  }

  ghost predicate AlwaysClean(t: Terms, k: nat) {
    forall s, actions :: Initial(t, s) && AtMost(t, s, actions, k) ==> Clean(t, Run(t, s, actions).books)
  }

  ghost predicate NeverSettledAgain(t: Terms, k: nat) {
    forall s, actions :: Initial(t, s) && AtMost(t, s, actions, k) ==> !Run(t, s, actions).books.again
  }

  function Beginning(): State {
    State(Books(Row(Pending, None), Account(0, 0, []), false), map[])
  }

  lemma CleanRun(t: Terms, k: nat, s: State, actions: seq<Action>)
    requires Initial(t, s) && AtMost(t, s, actions, k)
    ensures k <= 1 || !t.provable || !Grants(t) ==> Clean(t, Run(t, s, actions).books)
    ensures k <= 1 || !t.provable ==> !Run(t, s, actions).books.again
  {
    hide Run, AtMost, Sequential, Granted;
    if k <= 1 {
      AtMostOneIsSequential(t, s, actions, k);
      SequentialRequests(t, s, actions);
    } else if !t.provable || !Grants(t) {
      InitialIsHarmless(t, s);
      IdleRunKeeps(t, s, actions);
    }
  }

  /** With up to `k` requests under way at a time, pending and failed receipts never have an entry exactly when
      requests do not overlap, the receipt carries no proof, or it is an upgrade that stands for no credits. */
  lemma CleanExactlyWhenAlone(t: Terms, k: nat)
    ensures AlwaysClean(t, k) <==> k <= 1 || !t.provable || (t.kind == Upgrade && t.credits == 0)
  {
    hide Run, AtMost, Granted, Clean, Overlap;
    forall s, actions | (k <= 1 || !t.provable || !Grants(t)) && Initial(t, s) && AtMost(t, s, actions, k)
      ensures Clean(t, Run(t, s, actions).books)
    {
      CleanRun(t, k, s, actions);
    }
    if k > 1 && t.provable && Grants(t) {
      var s, yes := Beginning(), (pc: Pc) => true;
      OverlapFailsSettledReceipt(t, s, yes);
      AtMostGrows(t, s, Overlap(t, s.books, yes, 1, 9), 2, k);
      NotClean(t, Run(t, s, Overlap(t, s.books, yes, 1, 9)).books);
    }
  }

  lemma NotClean(t: Terms, b: Books)
    requires b.row.status == Failed && Granted(t, b)
    ensures !Clean(t, b)
  {
  }

  lemma {:induction false} AtMostGrows(t: Terms, s: State, actions: seq<Action>, j: nat, k: nat)
    requires AtMost(t, s, actions, j) && j <= k
    ensures AtMost(t, s, actions, k)
    decreases |actions|
  {
    hide Apply, LiveIds;
    if actions != [] {
      AtMostGrows(t, Apply(t, s, actions[0]), actions[1..], j, k);
    }
  }

  /** And a settlement is never requested once a successful one is stored exactly when requests do not overlap or the
      receipt carries no proof. */
  lemma SettledOnceExactlyWhenAlone(t: Terms, k: nat)
    ensures NeverSettledAgain(t, k) <==> k <= 1 || !t.provable
  {
    hide Run, AtMost, Granted, Clean, Overlap;
    forall s, actions | (k <= 1 || !t.provable) && Initial(t, s) && AtMost(t, s, actions, k)
      ensures !Run(t, s, actions).books.again
    {
      CleanRun(t, k, s, actions);
    }
    if k > 1 && t.provable {
      var s, yes := Beginning(), (pc: Pc) => true;
      OverlapSettlesAgain(t, s, yes);
      AtMostGrows(t, s, Overlap(t, s.books, yes, 3, 3), 2, k);
    }
  }

  lemma InitialIsCurrent(t: Terms, s: State)
    requires Initial(t, s)
    ensures SeqInv(t, s) && !Live(s)
  {
    NoEntryCounts(s.books.account.ledger, Receipt(t.id));
  }

  // ----- the request as the program it is -----

  class Confirmation {
    const t: Terms
    const answers: Pc -> bool
    const billing: TenantBilling
    var status: ReceiptStatus
    var stored: Option<bool>
    ghost var again: bool

    /** The request of the protocol that this program is, and how far it got. */
    ghost var origin: Books
    ghost var request: Request
    ghost var steps: nat

    ghost function Now(): Books
      reads this, billing
    {
      Books(Row(status, stored), billing.Value(), again)
    }

    ghost predicate Valid()
      reads this, billing
    {
      AdvanceN(t, origin, FRESH, answers, steps) == (Now(), request)
    }

    constructor (t: Terms, answers: Pc -> bool, billing: TenantBilling, row: Row)
      ensures this.t == t && this.answers == answers && this.billing == billing
      ensures Now() == Books(row, billing.Value(), false) && origin == Now() && request == FRESH && steps == 0
    {
      this.t, this.answers, this.billing := t, answers, billing;
      status, stored, again := row.status, row.stored, false;
      origin, request, steps := Books(row, billing.Value(), false), FRESH, 0;
    }

    /** The operation that stood next is over. */
    ghost method Over(b: Books)
      requires AdvanceN(t, origin, FRESH, answers, steps) == (b, request)
      requires Advance(t, b, request, answers(request.pc)).0 == Now()
      modifies this`request, this`steps
      ensures Valid() && request == Advance(t, b, old(request), answers(old(request).pc)).1
    {
      hide Advance;
      request := Advance(t, b, request, answers(request.pc)).1;
      steps := steps + 1;
    }

    /** The status write of the receipt row. */
    method UpdateReceiptStatus(next: ReceiptStatus, settle: Option<bool>, ghost goal: Pc)
      requires Valid() && Advance(t, Now(), request, answers(request.pc)) == Wrote(Now(), Row(next, settle), goal)
      modifies this`status, this`stored, this`request, this`steps
      ensures Valid() && status == next && stored == settle && request == Request(goal, Row(next, settle))
      ensures billing.Value() == old(billing.Value())
    {
      hide Advance, AdvanceN;
      ghost var before := Now();
      status, stored := next, settle;
      Over(before);
    }

    /** None: the request ends here with an answer to its caller. Otherwise the receipt to finalize. */
    method ConfirmWithFacilitator(seen: Row) returns (confirmed: Option<Row>)
      requires Valid() && request == Request(Route(t, seen), seen) && seen == Row(status, stored)
      requires seen.status == Pending || seen.status == Verified
      modifies this`status, this`stored, this`again, this`request, this`steps
      ensures Valid() && billing.Value() == old(billing.Value())
      ensures request.pc == if confirmed.Some? then ReadLedger else Done
      ensures confirmed.Some? ==> request.seen == confirmed.value == Row(status, stored)
    {
      hide HasEntry, AdvanceN;
      var working := seen;
      if !t.provable {
        return None;
      }
      if seen.status == Pending {
        ghost var before := Now();
        var verified := answers(Verify);
        Over(before);
        if !verified {
          UpdateReceiptStatus(ReceiptStatus.Failed, seen.stored, Done);
          return None;
        }
        UpdateReceiptStatus(Verified, seen.stored, RequestSettlement);
        working := Row(Verified, seen.stored);
      } else if seen.stored == Some(true) {
        return Some(seen);
      }
      ghost var before := Now();
      var settled := answers(RequestSettlement);
      again := again || stored == Some(true);
      Over(before);
      if !settled {
        UpdateReceiptStatus(Verified, Some(false), Done);
        return None;
      }
      UpdateReceiptStatus(Verified, Some(true), ReadLedger);
      return Some(Row(Verified, Some(true)));
    }

    method FinalizeSettlement(seen: Row)
      requires Valid() && request == Request(ReadLedger, seen)
      modifies this`status, this`stored, this`request, this`steps, billing
      ensures Valid() && request.pc == Done
    {
      hide HasEntry, AdvanceN, Appended, Reconciled;
      var existing := billing.FindEntry(Receipt(t.id));
      Over(Now());
      if (seen.status == Settled && !existing) || !Grants(t) {
        return;
      }
      ghost var before := Now();
      if !existing {
        billing.AppendLedgerEntry(Entry(Receipt(t.id), t.credits));
        Over(before);
      }
      before := Now();
      billing.ReconcileTenantAvailableCredits();
      Over(before);
      if existing && seen.status == Settled {
        return;
      }
      UpdateReceiptStatus(Settled, seen.stored, Done);
    }

    /** `POST /v1/billing/payment/confirm` from the read of the receipt to its answer: the rows go through the
        operations of one request, to its end. */
    method ConfirmPayment()
      requires origin == Now() && request == FRESH && steps == 0
      modifies this`status, this`stored, this`again, this`request, this`steps, billing
      ensures AdvanceN(t, old(Now()), FRESH, answers, steps) == (Now(), request) && request.pc == Done
      ensures Now() == LoneBooks(t, old(Now()), answers)
    {
      hide HasEntry, Appended, Reconciled, LoneBooks;
      var seen := Row(status, stored);
      Over(Now());
      if seen.status == ReceiptStatus.Failed {
        DoneIsLone(t, old(Now()), answers, steps);
        return;
      }
      var confirmed := Some(seen);
      if seen.status != Settled {
        confirmed := ConfirmWithFacilitator(seen);
      }
      if confirmed.Some? {
        FinalizeSettlement(confirmed.value);
      }
      DoneIsLone(t, old(Now()), answers, steps);
    }
  }
}
