/** Which interruptions between a handler and its money do harm: for each that does, a run of its own that shows it,
    and for the others a proof over all runs. */
module Interruptions {
  import opened Billing
  import opened Jobs
  import opened Text
  import opened Credits

  // ----- runs in legs -----

  lemma {:induction false} RunOfSum(s: System, a: seq<Action>, b: seq<Action>)
    ensures Run(s, a + b) == Run(Run(s, a), b)
    ensures Faults(s, a + b) == Faults(s, a) + Faults(Run(s, a), b)
    decreases |a|
  {
    hide Apply, FaultsAt;
    if a == [] {
      assert a + b == b;
    } else {
      assert (a + b)[0] == a[0] && (a + b)[1..] == a[1..] + b;
      RunOfSum(Apply(s, a[0]), a[1..], b);
    }
  }

  lemma RunOfOne(s: System, a: Action)
    ensures Run(s, [a]) == Apply(s, a) && Faults(s, [a]) == FaultsAt(s, a)
  {
    hide Apply, FaultsAt;
    assert Run(Apply(s, a), []) == Apply(s, a);
  }

  lemma RunOfTwo(s: System, a: Action, b: Action)
    ensures Run(s, [a, b]) == Apply(Apply(s, a), b)
    ensures Faults(s, [a, b]) == FaultsAt(s, a) + FaultsAt(Apply(s, a), b)
  {
    hide Run, Faults, Apply, FaultsAt;
    assert [a, b] == [a] + [b];
    RunOfSum(s, [a], [b]);
    RunOfOne(s, a);
    RunOfOne(Apply(s, a), b);
  }

  lemma RunOfThree(s: System, a: Action, b: Action, c: Action)
    ensures Run(s, [a, b, c]) == Apply(Apply(Apply(s, a), b), c)
    ensures Faults(s, [a, b, c])
            == FaultsAt(s, a) + FaultsAt(Apply(s, a), b) + FaultsAt(Apply(Apply(s, a), b), c)
  {
    hide Run, Faults, Apply, FaultsAt;
    assert [a, b, c] == [a, b] + [c];
    RunOfSum(s, [a, b], [c]);
    RunOfTwo(s, a, b);
    RunOfOne(Apply(Apply(s, a), b), c);
  }

  lemma {:induction false} EntryRun(s: System, actions: seq<Action>)
    requires EntryInv(s)
    ensures EntryInv(Run(s, actions))
    decreases |actions|
  {
    hide EntryInv, Apply;
    if actions != [] {
      EntryStep(s, actions[0]);
      EntryRun(Apply(s, actions[0]), actions[1..]);
    }
  }

  // ----- undisturbed legs -----

  function Chargeable(status: JobStatus, debited: bool, held: bool, owner: Option<nat>): SendJob {
    SendJob(1, status, Placed, status == Sent, status == Failed, debited, held, owner)
  }

  /** Credits for one send, reserved, and the job in the queue. */
  function Fresh(): SendJob {
    Chargeable(Queued, false, true, None)
  }

  function Queueing(n: nat): seq<Action> {
    [Enqueue(1), InsertJob(n)]
  }

  lemma QueueOne(s: System, n: nat)
    requires s.account.available >= 1 && n == |s.jobs|
    ensures Run(s, Queueing(n)) == System(Reserved(s.account, 1).value, s.jobs + [Fresh()], s.handlers)
    ensures Faults(s, Queueing(n)) == {}
  {
    hide Run, Faults;
    RunOfTwo(s, Enqueue(1), InsertJob(n));
    assert (s.jobs + [Fresh().(stage := Enqueuing)])[n := Fresh()] == s.jobs + [Fresh()];
  }

  /** `n` statements of one handler. */
  function Working(h: nat, n: nat): seq<Action> {
    if n == 0 then [] else [Work(h)] + Working(h, n - 1)
  }

  lemma WorkingOn(s: System, h: nat, n: nat)
    requires n > 0
    ensures Run(s, Working(h, n)) == Run(Apply(s, Work(h)), Working(h, n - 1))
    ensures Faults(s, Working(h, n)) == FaultsAt(s, Work(h)) + Faults(Apply(s, Work(h)), Working(h, n - 1))
  {
    hide Run, Faults, Apply, FaultsAt;
    RunOfSum(s, [Work(h)], Working(h, n - 1));
    RunOfOne(s, Work(h));
  }

  lemma NoWork(s: System, h: nat)
    ensures Run(s, Working(h, 0)) == s && Faults(s, Working(h, 0)) == {}
  {
  }

  lemma WorkStep(s: System, h: nat)
    requires Works(s, h)
    ensures Apply(s, Work(h))
            == Put(s, h, Worked(s.account, s.handlers[h].job, JobOf(s, h), h, s.handlers[h].pc))
  {
  }

  function Moved(s: System, h: nat, account: Account, job: SendJob, pc: Pc): System
    requires Works(s, h)
  {
    System(account, s.jobs[s.handlers[h].job := job], s.handlers[h := Handler(s.handlers[h].job, pc)])
  }

  lemma NobodyElseCaptures(s: System, h: nat, t: System)
    requires !SomebodyCaptures(s) && h in t.handlers && t.handlers[h].pc != Capturing
    requires forall k :: k in t.handlers && k != h ==> k in s.handlers && t.handlers[k] == s.handlers[k]
    ensures !SomebodyCaptures(t)
  {
  }

  lemma ReconcilesLast(s: System, h: nat)
    requires Works(s, h) && s.handlers[h].pc == Reconciling && !SomebodyCaptures(s)
    ensures Run(s, Working(h, 1)) == System(Reconciled(s.account), s.jobs, s.handlers - {h})
    ensures Faults(s, Working(h, 1)) == {}
  {
    hide Run, Faults, Working, Apply, Reconciled;
    WorkingOn(s, h, 1);
    WorkStep(s, h);
    NoWork(Apply(s, Work(h)), h);
  }

  /** From the append on, whether or not another handler has debited the job meanwhile. */
  lemma SettlesFromAppend(s: System, h: nat)
    requires Works(s, h) && s.handlers[h].pc == Appending && !SomebodyCaptures(s)
    ensures var i, job := s.handlers[h].job, JobOf(s, h);
            var a := Appended(s.account, Debit(i, job.cost)); var settled := OrElse(Captured(a, job.cost), a);
            Run(s, Working(h, 3))
            == System(Reconciled(settled), s.jobs[i := job.(debited := true, held := false, owner := None)],
                      s.handlers - {h})
            && Faults(s, Working(h, 3)) == if job.debited then {SecondSettlement} else {}
  {
    hide Run, Faults, Working, Apply, Appended, Captured, Reconciled, SomebodyCaptures;
    var i, job := s.handlers[h].job, JobOf(s, h);
    var a := Appended(s.account, Debit(i, job.cost));
    var debited := job.(debited := true, owner := Some(h));
    var settled := job.(debited := true, held := false, owner := None);
    var s1 := Moved(s, h, a, debited, Capturing);
    var s2 := Moved(s, h, OrElse(Captured(a, job.cost), a), settled, Reconciling);
    WorkStep(s, h);
    WorkingOn(s, h, 3);
    WorkStep(s1, h);
    WorkingOn(s1, h, 2);
    assert Apply(s1, Work(h)) == s2;
    NobodyElseCaptures(s, h, s2);
    ReconcilesLast(s2, h);
    assert s2.handlers - {h} == s.handlers - {h};
  }

  /** A handler that stands before a settlement and is left alone settles: its statements are the whole settlement. */
  lemma SettleIsWork(s: System, h: nat)
    requires Works(s, h) && s.handlers[h].pc == Checking && JobOf(s, h).cost > 0 && !SomebodyCaptures(s)
    requires HasEntry(s.account.ledger, Job(s.handlers[h].job)) <==> JobOf(s, h).debited
    ensures var i, job := s.handlers[h].job, JobOf(s, h); var n := if job.debited then 2 else 4;
            Faults(s, Working(h, n)) == {}
            && Run(s, Working(h, n))
               == System(Settlement(s.account, i, job.cost),
                         if job.debited then s.jobs
                         else s.jobs[i := job.(debited := true, held := false, owner := None)],
                         s.handlers - {h})
  {
    hide Run, Faults, HasEntry, Working, Apply, Appended, Captured, Reconciled, SomebodyCaptures;
    var i, job := s.handlers[h].job, JobOf(s, h);
    var t := Moved(s, h, s.account, job, if job.debited then Reconciling else Appending);
    WorkStep(s, h);
    assert Apply(s, Work(h)) == t && t.jobs == s.jobs && t.handlers - {h} == s.handlers - {h};
    NobodyElseCaptures(s, h, t);
    if job.debited {
      WorkingOn(s, h, 2);
      ReconcilesLast(t, h);
    } else {
      WorkingOn(s, h, 4);
      SettlesFromAppend(t, h);
    }
  }

  lemma ClaimOne(s: System, h: nat, i: nat)
    requires h !in s.handlers && i < |s.jobs| && s.jobs[i] == Fresh()
    ensures Run(s, [Deliver(h, i), Work(h)])
            == System(s.account, s.jobs[i := Chargeable(Sending, false, true, Some(h))],
                      s.handlers[h := Handler(i, Holding)])
    ensures Faults(s, [Deliver(h, i), Work(h)]) == {}
  {
    hide Run, Faults;
    RunOfTwo(s, Deliver(h, i), Work(h));
    var s1 := s.(handlers := s.handlers[h := Handler(i, Claiming)]);
    assert Apply(s, Deliver(h, i)) == s1;
    assert Apply(s1, Work(h)).handlers == s.handlers[h := Handler(i, Holding)];
  }

  /** A delivery claims the job and the provider accepts it. */
  function Sends(h: nat, i: nat): seq<Action> {
    [Deliver(h, i), Work(h)] + [Accept(h)]
  }

  lemma SendOne(s: System, h: nat, i: nat)
    requires h !in s.handlers && i < |s.jobs| && s.jobs[i] == Fresh()
    ensures Run(s, Sends(h, i))
            == System(s.account, s.jobs[i := Chargeable(Sent, false, true, None)],
                      s.handlers[h := Handler(i, Checking)])
    ensures Faults(s, Sends(h, i)) == {}
  {
    hide Run, Faults, Fresh;
    ClaimOne(s, h, i);
    var t := Run(s, [Deliver(h, i), Work(h)]);
    var sent := Chargeable(Sent, false, true, None);
    RunOfOne(t, Accept(h));
    assert t.jobs[i := sent] == s.jobs[i := sent];
    assert t.handlers[h := Handler(i, Checking)] == s.handlers[h := Handler(i, Checking)];
    RunOfSum(s, [Deliver(h, i), Work(h)], [Accept(h)]);
  }

  /** A job is sent and settled by one handler while no other is at work. */
  function SendAndSettle(h: nat, i: nat): seq<Action> {
    Sends(h, i) + Working(h, 4)
  }

  lemma SendSettles(s: System, h: nat, i: nat)
    requires s.handlers == map[] && i < |s.jobs| && s.jobs[i] == Fresh() && EntryInv(s)
    ensures Run(s, SendAndSettle(h, i))
            == System(Settlement(s.account, i, 1), s.jobs[i := Chargeable(Sent, true, false, None)], map[])
    ensures Faults(s, SendAndSettle(h, i)) == {}
  {
    hide Run, Faults, Working, HasEntry, Settlement;
    SendOne(s, h, i);
    var t := Run(s, Sends(h, i));
    SettleIsWork(t, h);
    RunOfSum(s, Sends(h, i), Working(h, 4));
    assert t.handlers - {h} == map[];
  }

  // ----- two jobs on two credits, and what interruptions make of them -----

  function Purse(): seq<Entry> {
    [Entry(NoReference, 2)]
  }

  function Beginning(): System {
    System(Account(2, 0, Purse()), [], map[])
  }

  function Two(available: int, reserved: int, first: SendJob, handlers: map<nat, Handler>): System {
    System(Account(available, reserved, Purse()), [first, Fresh()], handlers)
  }

  lemma PurseHoldsTwo()
    ensures LedgerSum(Purse()) == 2 && Initial(Beginning()) && EntryInv(Beginning())
  {
    assert Purse()[..0] == [];
  }

  /** Two jobs are enqueued and use up the credits. */
  function BothQueued(): seq<Action> {
    Queueing(0) + Queueing(1)
  }

  lemma BothQueue()
    ensures Run(Beginning(), BothQueued()) == Two(0, 2, Fresh(), map[])
    ensures Faults(Beginning(), BothQueued()) == {}
  {
    hide Run, Faults, Queueing, Fresh, Purse;
    var s := Beginning();
    var s1 := System(Account(1, 1, Purse()), [Fresh()], map[]);
    QueueOne(s, 0);
    assert s.jobs + [Fresh()] == [Fresh()];
    QueueOne(s1, 1);
    assert [Fresh()] + [Fresh()] == [Fresh(), Fresh()];
    RunOfSum(s, Queueing(0), Queueing(1));
  }

  function Claimed(): System {
    Two(0, 2, Chargeable(Sending, false, true, Some(1)), map[1 := Handler(0, Holding)])
  }

  /** The first job is in flight and nobody works on it any more. */
  function Doubtful(handlers: map<nat, Handler>): System {
    Two(0, 2, Chargeable(Sending, false, true, None), handlers)
  }

  function Claim1(): seq<Action> {
    [Deliver(1, 0), Work(1)]
  }

  lemma Claims1()
    ensures Run(Two(0, 2, Fresh(), map[]), Claim1()) == Claimed() && Faults(Two(0, 2, Fresh(), map[]), Claim1()) == {}
  {
    hide Run, Faults, Purse;
    var s, job := Two(0, 2, Fresh(), map[]), Chargeable(Sending, false, true, Some(1));
    ClaimOne(s, 1, 0);
    assert s.jobs[0 := job] == [job, Fresh()];
  }

  lemma ClaimDies()
    ensures var s, actions := Two(0, 2, Fresh(), map[]), Claim1() + [Die(1)];
            Run(s, actions) == Doubtful(map[]) && Faults(s, actions) == {}
  {
    hide Run, Faults, Claim1, Purse, Fresh;
    Claims1();
    RunOfOne(Claimed(), Die(1));
    RunOfSum(Two(0, 2, Fresh(), map[]), Claim1(), [Die(1)]);
    assert Claimed().handlers - {1} == map[];
  }

  lemma DeliverOne(s: System, h: nat)
    requires h !in s.handlers && |s.jobs| > 0 && s.jobs[0].stage == Placed
    ensures Run(s, [Deliver(h, 0)]) == s.(handlers := s.handlers[h := Handler(0, Opening(s.jobs[0].status))])
    ensures Faults(s, [Deliver(h, 0)]) == {}
  {
    hide Run, Faults, Apply, FaultsAt;
    RunOfOne(s, Deliver(h, 0));
    DeliverStep(s, h);
  }

  /** A delivery finds the first job in flight, and neither sent nor failed. */
  function Doubts(h: nat): seq<Action> {
    [Deliver(h, 0)] + [Work(h)]
  }

  lemma DoubtOne(s: System, h: nat)
    requires h !in s.handlers && |s.jobs| > 0 && s.jobs[0].stage == Placed
    requires s.jobs[0].status == Sending && !s.jobs[0].recorded && !s.jobs[0].broken
    ensures Run(s, Doubts(h)) == s.(handlers := s.handlers[h := Handler(0, InDoubt)])
    ensures Faults(s, Doubts(h)) == {}
  {
    hide Run, Faults, Apply, FaultsAt;
    var t := s.(handlers := s.handlers[h := Handler(0, Looking)]);
    DeliverOne(s, h);
    LooksOn(t, h);
    RunOfOne(t, Work(h));
    RunOfSum(s, [Deliver(h, 0)], [Work(h)]);
    assert t.handlers[h := Handler(0, InDoubt)] == s.handlers[h := Handler(0, InDoubt)];
  }

  lemma LooksOn(s: System, h: nat)
    requires Works(s, h) && s.handlers[h].pc == Looking && !JobOf(s, h).recorded && !JobOf(s, h).broken
    ensures Apply(s, Work(h)) == s.(handlers := s.handlers[h := Handler(s.handlers[h].job, InDoubt)])
    ensures FaultsAt(s, Work(h)) == {}
  {
    hide Apply;
    WorkStep(s, h);
    assert s.jobs[s.handlers[h].job := JobOf(s, h)] == s.jobs;
  }

  lemma DeliverStep(s: System, h: nat)
    ensures Apply(s, Deliver(h, 0)) == Delivered(s, h, 0) && FaultsAt(s, Deliver(h, 0)) == {}
  {
  }

  /** One handler gives up on the first job and releases its reservation. */
  function Freeing(h: nat): seq<Action> {
    [GiveUp(h), Work(h)]
  }

  predicate FirstInDoubt(s: System, h: nat) {
    && s.account.ledger == Purse() && s.account.reserved >= 1
    && |s.jobs| == 2 && s.jobs[0].cost == 1 && s.jobs[1] == Fresh()
    && h in s.handlers && s.handlers[h] == Handler(0, InDoubt)
  }

  lemma Frees(s: System, h: nat)
    requires FirstInDoubt(s, h)
    ensures Run(s, Freeing(h))
            == Two(s.account.available + 1, s.account.reserved - 1,
                   s.jobs[0].(status := Failed, broken := true, held := false, owner := None),
                   s.handlers[h := Handler(0, Lettering)])
    ensures Faults(s, Freeing(h)) == FaultsAt(s, GiveUp(h))
  {
    hide Run, Faults, Alive, Purse, Fresh;
    RunOfTwo(s, GiveUp(h), Work(h));
    var given := s.jobs[0].(status := Failed, broken := true, owner := Some(h));
    assert Apply(s, GiveUp(h)) == Moved(s, h, s.account, given, Releasing(true));
    assert s.jobs[0 := given][0 := given.(held := false, owner := None)]
           == [given.(held := false, owner := None), Fresh()];
  }

  /** And writes its dead letter. */
  function Giving(h: nat): seq<Action> {
    Freeing(h) + [Work(h)]
  }

  lemma GivesUp(s: System, h: nat)
    requires FirstInDoubt(s, h)
    ensures Run(s, Giving(h))
            == Two(s.account.available + 1, s.account.reserved - 1,
                   s.jobs[0].(status := Failed, broken := true, held := false, owner := None), s.handlers - {h})
    ensures Faults(s, Giving(h)) == FaultsAt(s, GiveUp(h))
  {
    hide Run, Faults, Freeing, Purse, Fresh, FaultsAt;
    var t := Run(s, Freeing(h));
    Frees(s, h);
    RunOfOne(t, Work(h));
    RunOfSum(s, Freeing(h), [Work(h)]);
    assert t.handlers - {h} == s.handlers - {h};
    assert t.jobs[0 := t.jobs[0]] == t.jobs;
    assert FaultsAt(t, Work(h)) == {} by { LetterIsQuiet(t, h); }
  }

  lemma LetterIsQuiet(s: System, h: nat)
    requires Works(s, h) && s.handlers[h].pc == Lettering
    ensures FaultsAt(s, Work(h)) == {}
  {
  }

  function Failed1(available: int, reserved: int, handlers: map<nat, Handler>): System {
    Two(available, reserved, Chargeable(Failed, false, false, None), handlers)
  }

  function Stale(): seq<Action> {
    Claim1() + [Die(1)] + Doubts(2) + Doubts(3) + Giving(2) + Giving(3)
  }

  /** Two deliveries find the job in doubt, and both give up on it. */
  lemma StaleReleasesTwice()
    ensures Run(Two(0, 2, Fresh(), map[]), Stale()) == Failed1(2, 0, map[])
    ensures Faults(Two(0, 2, Fresh(), map[]), Stale()) == {StaleGiveUp}
  {
    hide Run, Faults, Giving, Doubts, Claim1, Purse, Fresh;
    var s := Two(0, 2, Fresh(), map[]);
    var legs := Claim1() + [Die(1)];
    ClaimDies();
    DoubtOne(Doubtful(map[]), 2);
    RunOfSum(s, legs, Doubts(2));
    DoubtOne(Doubtful(map[2 := Handler(0, InDoubt)]), 3);
    RunOfSum(s, legs + Doubts(2), Doubts(3));
    TwoGiveUp();
    RunOfSum(s, legs + Doubts(2) + Doubts(3), Giving(2));
    RunOfSum(s, legs + Doubts(2) + Doubts(3) + Giving(2), Giving(3));
  }

  lemma TwoGiveUp()
    ensures var s := Doubtful(map[2 := Handler(0, InDoubt), 3 := Handler(0, InDoubt)]);
            Faults(s, Giving(2)) == {} && Faults(Run(s, Giving(2)), Giving(3)) == {StaleGiveUp}
            && Run(Run(s, Giving(2)), Giving(3)) == Failed1(2, 0, map[])
  {
    hide Run, Faults, Giving, Purse, Fresh;
    var s := Doubtful(map[2 := Handler(0, InDoubt), 3 := Handler(0, InDoubt)]);
    var t := Failed1(1, 1, map[3 := Handler(0, InDoubt)]);
    GivesUp(s, 2);
    assert s.handlers - {2} == t.handlers;
    GivesUp(t, 3);
    assert t.handlers - {3} == map[];
  }

  function Live(): seq<Action> {
    Claim1() + Doubts(2) + Giving(2) + [Accept(1)] + Working(1, 4)
  }

  function Settled2(): Account {
    Account(1, 0, Purse() + [Debit(0, 1)])
  }

  lemma PurseAfterDebit()
    ensures LedgerSum(Purse()) == 2 && LedgerSum(Purse() + [Debit(0, 1)]) == 1
    ensures HasEntry(Purse() + [Debit(0, 1)], Job(0)) && !HasEntry(Purse(), Job(0))
    ensures Settlement(Account(1, 1, Purse()), 0, 1) == Settled2()
  {
    hide HasEntry;
    PurseHoldsTwo();
    AppendedLedger(Account(0, 0, Purse()), Debit(0, 1), NoReference);
    EntriesAfterAppend(Purse(), Debit(0, 1));
  }

  /** The claim holder is alive when another delivery gives up; then it is accepted and settles. */
  lemma LiveReleasesAndCaptures()
    ensures Run(Two(0, 2, Fresh(), map[]), Live())
            == System(Settled2(), [Chargeable(Sent, true, false, None), Fresh()], map[])
    ensures Faults(Two(0, 2, Fresh(), map[]), Live()) == {LiveGiveUp}
  {
    hide Run, Faults, Giving, Doubts, Working, Claim1, Purse, Fresh, Settled2;
    var s := Two(0, 2, Fresh(), map[]);
    Claims1();
    DoubtOne(Claimed(), 2);
    RunOfSum(s, Claim1(), Doubts(2));
    LiveIsGivenUp();
    RunOfSum(s, Claim1() + Doubts(2), Giving(2));
    RunOfSum(s, Claim1() + Doubts(2) + Giving(2), [Accept(1)]);
    LateSettlement();
    RunOfSum(s, Claim1() + Doubts(2) + Giving(2) + [Accept(1)], Working(1, 4));
  }

  lemma LiveIsGivenUp()
    ensures var s := Claimed().(handlers := Claimed().handlers[2 := Handler(0, InDoubt)]);
            Run(s, Giving(2)) == Failed1(1, 1, map[1 := Handler(0, Holding)]) && Faults(s, Giving(2)) == {LiveGiveUp}
  {
    hide Run, Faults, Giving, Purse, Fresh;
    var s := Claimed().(handlers := Claimed().handlers[2 := Handler(0, InDoubt)]);
    GivesUp(s, 2);
    assert IsAt(s, 1, 0, Holding);
    assert s.handlers - {2} == map[1 := Handler(0, Holding)];
  }

  lemma LateSettlement()
    ensures var s := Failed1(1, 1, map[1 := Handler(0, Holding)]);
            Faults(s, [Accept(1)]) == {} && Faults(Run(s, [Accept(1)]), Working(1, 4)) == {}
            && Run(Run(s, [Accept(1)]), Working(1, 4))
               == System(Settled2(), [Chargeable(Sent, true, false, None), Fresh()], map[])
  {
    hide Run, Faults, Working, HasEntry, Settlement, Purse, Fresh;
    var s := Failed1(1, 1, map[1 := Handler(0, Holding)]);
    var t := Two(1, 1, Chargeable(Sent, false, false, None), map[1 := Handler(0, Checking)]);
    RunOfOne(s, Accept(1));
    assert Apply(s, Accept(1)) == t;
    PurseAfterDebit();
    SettleIsWork(t, 1);
    assert t.handlers - {1} == map[];
  }

  function Straying(): seq<Action> {
    Claim1() + [Die(1)] + Doubts(2) + Freeing(2) + [Stray(2, true), Work(2)]
  }

  /** After giving up and releasing, the dead letter throws; the catch block is exhausted and releases again. */
  lemma StrayReleasesTwice()
    ensures Run(Two(0, 2, Fresh(), map[]), Straying()) == Failed1(2, 0, map[])
    ensures Faults(Two(0, 2, Fresh(), map[]), Straying()) == {Unclaimed}
  {
    hide Run, Faults, Claim1, Doubts, Freeing, Purse, Fresh;
    var s := Two(0, 2, Fresh(), map[]);
    var legs := Claim1() + [Die(1)];
    ClaimDies();
    DoubtOne(Doubtful(map[]), 2);
    RunOfSum(s, legs, Doubts(2));
    FreesDoubtful();
    RunOfSum(s, legs + Doubts(2), Freeing(2));
    StrayRelease();
    RunOfSum(s, legs + Doubts(2) + Freeing(2), [Stray(2, true), Work(2)]);
  }

  lemma FreesDoubtful()
    ensures var s := Doubtful(map[2 := Handler(0, InDoubt)]);
            Run(s, Freeing(2)) == Failed1(1, 1, map[2 := Handler(0, Lettering)]) && Faults(s, Freeing(2)) == {}
  {
    hide Run, Faults, Freeing, Purse, Fresh;
    var s := Doubtful(map[2 := Handler(0, InDoubt)]);
    Frees(s, 2);
    assert s.handlers[2 := Handler(0, Lettering)] == map[2 := Handler(0, Lettering)];
    assert !Alive(s, 0);
  }

  lemma StrayRelease()
    ensures var s, actions := Failed1(1, 1, map[2 := Handler(0, Lettering)]), [Stray(2, true), Work(2)];
            Run(s, actions) == Failed1(2, 0, map[]) && Faults(s, actions) == {Unclaimed}
  {
    hide Run, Faults, Purse, Fresh;
    var s := Failed1(1, 1, map[2 := Handler(0, Lettering)]);
    var t := Failed1(1, 1, map[2 := Handler(0, Releasing(false))]);
    RunOfTwo(s, Stray(2, true), Work(2));
    assert Apply(s, Stray(2, true)) == t;
    assert t.handlers - {2} == map[];
  }

  function Unwritten(): seq<Action> {
    Claim1() + [FailUnwritten(1), Work(1)] + [Deliver(2, 0)] + Working(2, 3)
  }

  /** In flight according to its status, failed according to its message, and released. */
  function HalfFailed(handlers: map<nat, Handler>): System {
    Two(1, 1, Chargeable(Sending, false, false, None).(broken := true), handlers)
  }

  /** The catch block releases although its status write failed; the next delivery finds the job in flight and its
      message failed, and releases again. */
  lemma LostStatusReleasesTwice()
    ensures Run(Two(0, 2, Fresh(), map[]), Unwritten()) == Failed1(2, 0, map[])
    ensures Faults(Two(0, 2, Fresh(), map[]), Unwritten()) == {LostStatus}
  {
    hide Run, Faults, Working, Claim1, Purse, Fresh;
    var s := Two(0, 2, Fresh(), map[]);
    Claims1();
    ReleaseUnwritten();
    RunOfSum(s, Claim1(), [FailUnwritten(1), Work(1)]);
    DeliverOne(HalfFailed(map[]), 2);
    RunOfSum(s, Claim1() + [FailUnwritten(1), Work(1)], [Deliver(2, 0)]);
    RejectsHalfFailed();
    RunOfSum(s, Claim1() + [FailUnwritten(1), Work(1)] + [Deliver(2, 0)], Working(2, 3));
  }

  lemma ReleaseUnwritten()
    ensures Run(Claimed(), [FailUnwritten(1), Work(1)]) == HalfFailed(map[])
    ensures Faults(Claimed(), [FailUnwritten(1), Work(1)]) == {LostStatus}
  {
    hide Run, Faults, Purse, Fresh;
    var s, job := Claimed(), HalfFailed(map[]).jobs[0];
    FreesUnwritten(s, 1);
    assert s.handlers - {1} == map[];
    assert s.jobs[0 := job] == [job, Fresh()];
  }

  lemma FreesUnwritten(s: System, h: nat)
    requires Works(s, h) && s.handlers[h].pc == Holding && Released(s.account, JobOf(s, h).cost).Some?
    ensures Run(s, [FailUnwritten(h), Work(h)])
            == System(Released(s.account, JobOf(s, h).cost).value,
                      s.jobs[s.handlers[h].job := JobOf(s, h).(broken := true, held := false, owner := None)],
                      s.handlers - {h})
    ensures Faults(s, [FailUnwritten(h), Work(h)]) == {LostStatus}
  {
    hide Run, Faults, Released;
    RunOfTwo(s, FailUnwritten(h), Work(h));
    var t := Moved(s, h, s.account, JobOf(s, h).(broken := true), Releasing(false));
    assert Apply(s, FailUnwritten(h)) == t;
    assert t.handlers - {h} == s.handlers - {h};
    assert t.jobs[s.handlers[h].job := JobOf(s, h).(broken := true, held := false, owner := None)]
           == s.jobs[s.handlers[h].job := JobOf(s, h).(broken := true, held := false, owner := None)];
  }

  lemma RejectsHalfFailed()
    ensures var s := HalfFailed(map[2 := Handler(0, Looking)]);
            Run(s, Working(2, 3)) == Failed1(2, 0, map[]) && Faults(s, Working(2, 3)) == {}
  {
    hide Run, Faults, Working, Purse, Fresh;
    var s, job := HalfFailed(map[2 := Handler(0, Looking)]), Chargeable(Failed, false, false, None);
    assert !Alive(s, 0);
    Rejects(s, 2);
    assert s.handlers - {2} == map[];
    assert s.jobs[0 := job] == [job, Fresh()];
  }

  /** A handler that finds the message failed while the job is in flight releases and marks the job. */
  lemma Rejects(s: System, h: nat)
    requires Works(s, h) && s.handlers[h].pc == Looking && !Alive(s, s.handlers[h].job)
    requires JobOf(s, h).status == Sending && !JobOf(s, h).recorded && JobOf(s, h).broken
    ensures Run(s, Working(h, 3))
            == System(OrElse(Released(s.account, JobOf(s, h).cost), s.account),
                      s.jobs[s.handlers[h].job := JobOf(s, h).(status := Failed, held := false, owner := None)],
                      s.handlers - {h})
    ensures Faults(s, Working(h, 3)) == {}
  {
    hide Run, Faults, Working, Apply, Released, Alive;
    var job := JobOf(s, h).(held := false, owner := None);
    var s1 := Moved(s, h, s.account, JobOf(s, h), Rejecting);
    var s2 := Moved(s, h, OrElse(Released(s.account, job.cost), s.account), job, Marking);
    WorkingOn(s, h, 3);
    WorkStep(s, h);
    WorkingOn(s1, h, 2);
    WorkStep(s1, h);
    assert Apply(s1, Work(h)) == s2;
    WorkingOn(s2, h, 1);
    WorkStep(s2, h);
    NoWork(Apply(s2, Work(h)), h);
    assert Apply(s2, Work(h)).jobs == s.jobs[s.handlers[h].job := job.(status := Failed)];
    assert s2.handlers - {h} == s.handlers - {h};
  }

  function Overlapping(): seq<Action> {
    Sends(1, 0) + [Work(1), Deliver(2, 0), Work(2)] + Working(1, 3) + Working(2, 3)
  }

  /** Two handlers settle one job at the same time: both find no debit, the second append is ignored, and the second
      capture takes the credit reserved for the other job. */
  lemma OverlapCapturesTwice()
    ensures Run(Two(0, 2, Fresh(), map[]), Overlapping())
            == System(Settled2(), [Chargeable(Sent, true, false, None), Fresh()], map[])
    ensures Faults(Two(0, 2, Fresh(), map[]), Overlapping()) == {SecondSettlement}
  {
    hide Run, Faults, HasEntry, Working, Sends, Purse, Settled2;
    var s := Two(0, 2, Fresh(), map[]);
    var look := [Work(1), Deliver(2, 0), Work(2)];
    SendOne(s, 1, 0);
    assert s.jobs[0 := Chargeable(Sent, false, true, None)] == [Chargeable(Sent, false, true, None), Fresh()];
    BothLook();
    RunOfSum(s, Sends(1, 0), look);
    FirstSettles();
    RunOfSum(s, Sends(1, 0) + look, Working(1, 3));
    SecondSettles();
    RunOfSum(s, Sends(1, 0) + look + Working(1, 3), Working(2, 3));
  }

  lemma BothLook()
    ensures var sent := Chargeable(Sent, false, true, None); var s := Two(0, 2, sent, map[1 := Handler(0, Checking)]);
            var actions := [Work(1), Deliver(2, 0), Work(2)];
            Run(s, actions) == Two(0, 2, sent, map[1 := Handler(0, Appending), 2 := Handler(0, Appending)])
            && Faults(s, actions) == {}
  {
    hide Run, Faults, HasEntry, Purse, Fresh, Apply;
    PurseAfterDebit();
    var sent := Chargeable(Sent, false, true, None);
    var s := Two(0, 2, sent, map[1 := Handler(0, Checking)]);
    RunOfThree(s, Work(1), Deliver(2, 0), Work(2));
    var s1 := Two(0, 2, sent, map[1 := Handler(0, Appending)]);
    var s2 := Two(0, 2, sent, map[1 := Handler(0, Appending), 2 := Handler(0, Checking)]);
    WorkStep(s, 1);
    assert Apply(s, Work(1)) == s1;
    DeliverStep(s1, 2);
    assert Apply(s1, Deliver(2, 0)) == s2;
    WorkStep(s2, 2);
    assert Apply(s2, Work(2)) == Two(0, 2, sent, map[1 := Handler(0, Appending), 2 := Handler(0, Appending)]);
  }

  function Debited2(available: int, reserved: int, job: SendJob, handlers: map<nat, Handler>): System {
    System(Account(available, reserved, Purse() + [Debit(0, 1)]), [job, Fresh()], handlers)
  }

  /** A settlement of one credit from the append on: the first one of the job, and one that comes too late. */
  lemma FirstAccount(a: Account, i: nat)
    requires !HasEntry(a.ledger, Job(i)) && a.reserved >= 1
    ensures var b := Appended(a, Debit(i, 1));
            Reconciled(OrElse(Captured(b, 1), b))
            == Account(LedgerSum(a.ledger) - a.reserved, a.reserved - 1, a.ledger + [Debit(i, 1)])
  {
    hide HasEntry, LedgerSum, Entries;
    AppendedLedger(a, Debit(i, 1), NoReference);
  }

  lemma LateAccount(a: Account, i: nat)
    requires HasEntry(a.ledger, Job(i)) && a.reserved >= 1
    ensures var b := Appended(a, Debit(i, 1));
            Reconciled(OrElse(Captured(b, 1), b))
            == Account(LedgerSum(a.ledger) - a.reserved + 1, a.reserved - 1, a.ledger)
  {
    hide HasEntry, LedgerSum;
  }

  lemma FirstSettles()
    ensures var sent := Chargeable(Sent, false, true, None);
            var s := Two(0, 2, sent, map[1 := Handler(0, Appending), 2 := Handler(0, Appending)]);
            Run(s, Working(1, 3))
            == Debited2(0, 1, Chargeable(Sent, true, false, None), map[2 := Handler(0, Appending)])
            && Faults(s, Working(1, 3)) == {}
  {
    hide Run, Faults, HasEntry, LedgerSum, Working, Purse, Fresh, Appended, Captured, Reconciled, Settlement;
    PurseAfterDebit();
    FirstAccount(Account(0, 2, Purse()), 0);
    var sent, settled := Chargeable(Sent, false, true, None), Chargeable(Sent, true, false, None);
    var s := Two(0, 2, sent, map[1 := Handler(0, Appending), 2 := Handler(0, Appending)]);
    SettlesFromAppend(s, 1);
    assert s.handlers - {1} == map[2 := Handler(0, Appending)];
    assert s.jobs[0 := settled] == [settled, Fresh()];
  }

  lemma SecondSettles()
    ensures var settled := Chargeable(Sent, true, false, None);
            var s := Debited2(0, 1, settled, map[2 := Handler(0, Appending)]);
            Run(s, Working(2, 3)) == System(Settled2(), [settled, Fresh()], map[])
            && Faults(s, Working(2, 3)) == {SecondSettlement}
  {
    hide Run, Faults, HasEntry, LedgerSum, Working, Purse, Fresh, Appended, Captured, Reconciled, Settlement;
    PurseAfterDebit();
    LateAccount(Account(0, 1, Purse() + [Debit(0, 1)]), 0);
    var settled := Chargeable(Sent, true, false, None);
    var s := Debited2(0, 1, settled, map[2 := Handler(0, Appending)]);
    SettlesFromAppend(s, 2);
    assert s.handlers - {2} == map[];
    assert s.jobs[0 := settled] == [settled, Fresh()];
  }

  // ----- a reservation used twice shows -----

  /** One credit is available and none reserved, while the second job still waits to be sent. */
  ghost predicate Short(s: System) {
    && s.handlers == map[] && s.account.available == 1 && s.account.reserved == 0
    && LedgerSum(s.account.ledger) == 1 && EntryInv(s)
    && |s.jobs| >= 2 && s.jobs[1] == Fresh()
  }

  /** The credits of one more job are reserved, and the second job is settled out of them. */
  function Taking(n: nat): seq<Action> {
    Queueing(n) + SendAndSettle(9, 1)
  }

  lemma TakesForeignCredit(s: System, n: nat)
    requires Short(s) && n == |s.jobs|
    ensures var t := Run(s, Taking(n));
            t.handlers == map[] && t.account.available == 0 && t.account.reserved == 0
            && LedgerSum(t.account.ledger) == 0 && EntryInv(t) && |t.jobs| == n + 1 && t.jobs[n] == Fresh()
    ensures Faults(s, Taking(n)) == {}
  {
    hide Run, Faults, Queueing, SendAndSettle, LedgerSum, HasEntry, Fresh;
    var t := Run(s, Queueing(n));
    QueueOne(s, n);
    EntryRun(s, Queueing(n));
    SendSettles(t, 9, 1);
    EntryRun(t, SendAndSettle(9, 1));
    FreshHasNoEntry(t, 1);
    SettledAccount(t.account, 1);
    RunOfSum(s, Queueing(n), SendAndSettle(9, 1));
  }

  lemma FreshHasNoEntry(s: System, i: nat)
    requires EntryInv(s) && i < |s.jobs| && s.jobs[i] == Fresh()
    ensures !HasEntry(s.account.ledger, Job(i))
  {
  }

  /** A settlement of one credit that is still to be debited. */
  lemma SettledAccount(a: Account, i: nat)
    requires !HasEntry(a.ledger, Job(i))
    ensures var r := Settlement(a, i, 1); var reserved := if a.reserved >= 1 then a.reserved - 1 else a.reserved;
            r == Account(LedgerSum(a.ledger) - 1 - reserved, reserved, a.ledger + [Debit(i, 1)])
            && LedgerSum(r.ledger) == LedgerSum(a.ledger) - 1
  {
    hide HasEntry, LedgerSum, Entries;
    AppendedLedger(a, Debit(i, 1), NoReference);
  }

  /** Then the new job is sent, and there is nothing left to capture. */
  function Missing(n: nat): seq<Action> {
    Taking(n) + Sends(9, n) + Working(9, 2)
  }

  lemma ShortMisses(s: System, n: nat)
    requires Short(s) && n == |s.jobs|
    ensures var t := Run(s, Missing(n));
            t.handlers == map[9 := Handler(n, Capturing)] && Works(t, 9) && JobOf(t, 9).cost == 1
            && t.account.reserved == 0 && Drift(t.account) == 1
    ensures Faults(s, Missing(n)) == {}
  {
    hide Run, Faults, Taking, Sends, Working, LedgerSum, HasEntry, Appended, Fresh;
    TakesForeignCredit(s, n);
    var t := Run(s, Taking(n));
    FreshHasNoEntry(t, n);
    SendOne(t, 9, n);
    assert t.handlers[9 := Handler(n, Checking)] == map[9 := Handler(n, Checking)];
    RunOfSum(s, Taking(n), Sends(9, n));
    DebitsOnce(Run(t, Sends(9, n)), 9, n);
    DebitedAccount(t.account, n);
    RunOfSum(s, Taking(n) + Sends(9, n), Working(9, 2));
  }

  lemma DebitedAccount(a: Account, i: nat)
    requires !HasEntry(a.ledger, Job(i))
    ensures var r := Appended(a, Debit(i, 1)); Drift(r) == Drift(a) + 1 && r.reserved == a.reserved
  {
    hide HasEntry, LedgerSum, Entries;
    AppendedLedger(a, Debit(i, 1), NoReference);
  }

  lemma NothingToCapture(a: Account, job: SendJob)
    requires a.reserved == 0 && job.cost == 1
    ensures !GuardHolds(a, job, Capturing)
  {
  }

  /** The capture misses, and a handler that dies before its reconcile leaves the account ahead of the ledger. */
  lemma ShortUnbalances(s: System, n: nat)
    requires Short(s) && n == |s.jobs|
    ensures var t := Run(s, Missing(n) + [Work(9), Die(9)]); t.handlers == map[] && Drift(t.account) == 1
    ensures Faults(s, Missing(n) + [Work(9), Die(9)]) == {}
  {
    hide Run, Faults, Missing, Short, LedgerSum;
    ShortMisses(s, n);
    var t := Run(s, Missing(n));
    CapturesAndDies(t, 9);
    assert t.handlers - {9} == map[];
    RunOfSum(s, Missing(n), [Work(9), Die(9)]);
  }

  lemma CapturesAndDies(s: System, h: nat)
    requires Works(s, h) && s.handlers[h].pc == Capturing
    ensures var t := Run(s, [Work(h), Die(h)]);
            t.account == OrElse(Captured(s.account, JobOf(s, h).cost), s.account) && t.handlers == s.handlers - {h}
    ensures Faults(s, [Work(h), Die(h)]) == {}
  {
    hide Run, Faults, Captured;
    RunOfTwo(s, Work(h), Die(h));
    var i := s.handlers[h].job;
    assert Apply(s, Work(h)).handlers == s.handlers[h := Handler(i, Reconciling)];
    assert s.handlers[h := Handler(i, Reconciling)] - {h} == s.handlers - {h};
  }

  lemma DebitsOnce(s: System, h: nat, n: nat)
    requires n < |s.jobs| && s.jobs[n] == Chargeable(Sent, false, true, None)
    requires s.handlers == map[h := Handler(n, Checking)]
    requires !HasEntry(s.account.ledger, Job(n))
    ensures Run(s, Working(h, 2))
            == System(Appended(s.account, Debit(n, 1)), s.jobs[n := Chargeable(Sent, true, true, Some(h))],
                      map[h := Handler(n, Capturing)])
    ensures Faults(s, Working(h, 2)) == {}
  {
    hide Run, Faults, Working, LedgerSum, HasEntry, Appended, Apply;
    var t := s.(handlers := map[h := Handler(n, Appending)]);
    WorkStep(s, h);
    WorkingOn(s, h, 2);
    assert Apply(s, Work(h)) == t;
    WorkStep(t, h);
    WorkingOn(t, h, 1);
    NoWork(Apply(t, Work(h)), h);
  }

  lemma ShortGoesNegative(s: System, n: nat)
    requires Short(s) && n == |s.jobs|
    ensures Run(s, Taking(n) + SendAndSettle(9, n)).account.available == -1
    ensures Faults(s, Taking(n) + SendAndSettle(9, n)) == {}
  {
    hide Run, Faults, Taking, SendAndSettle, LedgerSum, HasEntry;
    TakesForeignCredit(s, n);
    var t := Run(s, Taking(n));
    FreshHasNoEntry(t, n);
    SendSettles(t, 9, n);
    SettledAccount(t.account, n);
    RunOfSum(s, Taking(n), SendAndSettle(9, n));
  }

  lemma ShortIsUnaccounted(s: System)
    requires Short(s)
    ensures Rests(s) && s.account.reserved != Sum(s.jobs, Due)
  {
    hide HasEntry, LedgerSum, Sum;
    SumOfUpdate(s.jobs, 1, s.jobs[1], Due);
  }

  /** After two releases of the first job: one more job reserves, is sent and settled. */
  function Spending(n: nat): seq<Action> {
    Queueing(n) + SendAndSettle(9, n)
  }

  lemma FreedTwiceEndsShort(s: System, n: nat)
    requires s.handlers == map[] && s.account.available == 2 && s.account.reserved == 0
    requires LedgerSum(s.account.ledger) == 2 && EntryInv(s) && n == |s.jobs| >= 2 && s.jobs[1] == Fresh()
    ensures Short(Run(s, Spending(n))) && Faults(s, Spending(n)) == {}
  {
    hide Run, Faults, Queueing, SendAndSettle, LedgerSum, HasEntry, Fresh;
    var t := Run(s, Queueing(n));
    QueueOne(s, n);
    EntryRun(s, Queueing(n));
    FreshHasNoEntry(t, n);
    SendSettles(t, 9, n);
    EntryRun(t, SendAndSettle(9, n));
    SettledAccount(t.account, n);
    RunOfSum(s, Queueing(n), SendAndSettle(9, n));
  }

  lemma SettledIsShort()
    ensures var s := System(Settled2(), [Chargeable(Sent, true, false, None), Fresh()], map[]);
            EntryInv(s) ==> Short(s)
  {
    PurseAfterDebit();
  }

  /** What each doubling interruption does with the first job. */
  function Doubled(f: Fault): seq<Action> {
    match f
    case StaleGiveUp => Stale()
    case LiveGiveUp => Live()
    case Unclaimed => Straying()
    case LostStatus => Unwritten()
    case _ => Overlapping()
  }

  lemma DoubledIs(f: Fault)
    requires f in Doubling()
    ensures var s := Two(0, 2, Fresh(), map[]); var t := Run(s, Doubled(f));
            Faults(s, Doubled(f)) == {f}
            && if f == LiveGiveUp || f == SecondSettlement then
                 t == System(Settled2(), [Chargeable(Sent, true, false, None), Fresh()], map[])
               else t == Failed1(2, 0, map[])
  {
    hide Run, Faults, Stale, Live, Straying, Unwritten, Overlapping, Purse, Fresh, Settled2;
    match f
    case StaleGiveUp => StaleReleasesTwice();
    case LiveGiveUp => LiveReleasesAndCaptures();
    case Unclaimed => StrayReleasesTwice();
    case LostStatus => LostStatusReleasesTwice();
    case SecondSettlement => OverlapCapturesTwice();
  }

  /** Each doubling interruption alone leads to a state that is short of a credit. */
  lemma DoublingEndsShort(f: Fault) returns (actions: seq<Action>)
    requires f in Doubling()
    ensures Initial(Beginning()) && Faults(Beginning(), actions) == {f} && Short(Run(Beginning(), actions))
  {
    hide Run, Faults, Doubled, BothQueued, Short, Spending, Initial, EntryInv, Beginning, Fresh, Purse, Settled2;
    PurseHoldsTwo();
    BothQueue();
    DoubledIs(f);
    RunOfSum(Beginning(), BothQueued(), Doubled(f));
    actions := BothQueued() + Doubled(f);
    EntryRun(Beginning(), actions);
    if f == LiveGiveUp || f == SecondSettlement {
      SettledIsShort();
    } else {
      FreedTwiceEndsShort(Failed1(2, 0, map[]), 2);
      RunOfSum(Beginning(), actions, Spending(2));
      actions := actions + Spending(2);
    }
  }

  // ----- captures that are interrupted, releases that are lost -----

  /** The first job is debited, and its handler stands before the capture. */
  function BeforeCapture(): seq<Action> {
    BothQueued() + Sends(1, 0) + Working(1, 2)
  }

  lemma StandsBeforeCapture()
    ensures Run(Beginning(), BeforeCapture())
            == Debited2(0, 2, Chargeable(Sent, true, true, Some(1)), map[1 := Handler(0, Capturing)])
    ensures Faults(Beginning(), BeforeCapture()) == {}
  {
    hide Run, Faults, BothQueued, Sends, Working, HasEntry, Purse, Fresh, Beginning;
    BothQueue();
    SendOne(Two(0, 2, Fresh(), map[]), 1, 0);
    var sent := Chargeable(Sent, false, true, None);
    assert [Fresh(), Fresh()][0 := sent] == [sent, Fresh()];
    RunOfSum(Beginning(), BothQueued(), Sends(1, 0));
    DebitsFirst();
    RunOfSum(Beginning(), BothQueued() + Sends(1, 0), Working(1, 2));
  }

  lemma DebitsFirst()
    ensures var s := Two(0, 2, Chargeable(Sent, false, true, None), map[1 := Handler(0, Checking)]);
            Run(s, Working(1, 2))
            == Debited2(0, 2, Chargeable(Sent, true, true, Some(1)), map[1 := Handler(0, Capturing)])
            && Faults(s, Working(1, 2)) == {}
  {
    hide Run, Faults, Working, HasEntry, Purse, Fresh, Chargeable, Appended, LedgerSum;
    PurseAfterDebit();
    var s := Two(0, 2, Chargeable(Sent, false, true, None), map[1 := Handler(0, Checking)]);
    DebitsOnce(s, 1, 0);
    AppendsToPurse();
    assert s.jobs[0 := Chargeable(Sent, true, true, Some(1))] == [Chargeable(Sent, true, true, Some(1)), Fresh()];
  }

  lemma AppendsToPurse()
    ensures Appended(Account(0, 2, Purse()), Debit(0, 1)) == Account(0, 2, Purse() + [Debit(0, 1)])
  {
    hide HasEntry, Purse, LedgerSum;
    PurseAfterDebit();
  }

  /** A crash between the debit and its capture leaves the credit reserved for good; the redelivery finds the debit,
      only reconciles, and drives the available credits below zero. */
  lemma InterruptionGoesNegative(actions: seq<Action>)
    requires actions == BeforeCapture() + [Die(1)] + [Deliver(2, 0)] + Working(2, 2)
    ensures Faults(Beginning(), actions) == {LostCapture}
    ensures Run(Beginning(), actions) == Debited2(-1, 2, Chargeable(Sent, true, true, None), map[])
  {
    hide Run, Faults, BeforeCapture, Working, Purse, Fresh, Beginning, HasEntry;
    var before := BeforeCapture();
    StandsBeforeCapture();
    var s := Debited2(0, 2, Chargeable(Sent, true, true, Some(1)), map[1 := Handler(0, Capturing)]);
    var t := Debited2(0, 2, Chargeable(Sent, true, true, None), map[]);
    RunOfOne(s, Die(1));
    assert s.handlers - {1} == map[];
    assert Apply(s, Die(1)) == t;
    RunOfSum(Beginning(), before, [Die(1)]);
    DeliverOne(t, 2);
    RunOfSum(Beginning(), before + [Die(1)], [Deliver(2, 0)]);
    RedeliveryReconciles();
    RunOfSum(Beginning(), before + [Die(1)] + [Deliver(2, 0)], Working(2, 2));
  }

  lemma RedeliveryReconciles()
    ensures var sent := Chargeable(Sent, true, true, None);
            var s := Debited2(0, 2, sent, map[2 := Handler(0, Checking)]);
            Run(s, Working(2, 2)) == Debited2(-1, 2, sent, map[]) && Faults(s, Working(2, 2)) == {}
  {
    hide Run, Faults, Working, Purse, Fresh, HasEntry;
    PurseAfterDebit();
    var s := Debited2(0, 2, Chargeable(Sent, true, true, None), map[2 := Handler(0, Checking)]);
    SettleIsWork(s, 2);
    assert s.handlers - {2} == map[];
  }

  /** A reconcile between the debit and its capture counts the credit twice until the next one. */
  lemma EarlyReconcileGoesNegative(actions: seq<Action>)
    requires actions == BeforeCapture() + [Reconcile]
    ensures Faults(Beginning(), actions) == {EarlyReconcile} && Run(Beginning(), actions).account.available == -1
  {
    hide Run, Faults, BeforeCapture, Purse, Fresh, Beginning, HasEntry;
    StandsBeforeCapture();
    PurseAfterDebit();
    var s := Debited2(0, 2, Chargeable(Sent, true, true, Some(1)), map[1 := Handler(0, Capturing)]);
    RunOfOne(s, Reconcile);
    assert s.handlers[1].pc == Capturing;
    RunOfSum(Beginning(), BeforeCapture(), [Reconcile]);
  }

  lemma LostReleaseIsUnaccounted(actions: seq<Action>)
    requires actions == BothQueued() + Claim1() + [FailForGood(1), Die(1)]
    ensures Faults(Beginning(), actions) == {LostRelease}
    ensures Run(Beginning(), actions) == Two(0, 2, Chargeable(Failed, false, true, None), map[])
  {
    hide Run, Faults, BothQueued, Claim1, Purse, Fresh, Beginning;
    BothQueue();
    Claims1();
    RunOfSum(Beginning(), BothQueued(), Claim1());
    RunOfTwo(Claimed(), FailForGood(1), Die(1));
    var t := Two(0, 2, Chargeable(Failed, false, true, Some(1)), map[1 := Handler(0, Releasing(false))]);
    assert Apply(Claimed(), FailForGood(1)) == t;
    assert t.handlers - {1} == map[];
    RunOfSum(Beginning(), BothQueued() + Claim1(), [FailForGood(1), Die(1)]);
  }

  lemma LostEnqueueIsUnaccounted(actions: seq<Action>)
    requires actions == [Enqueue(1), DieEnqueuing(0)]
    ensures Faults(Beginning(), actions) == {LostEnqueue}
    ensures Run(Beginning(), actions)
            == System(Account(1, 1, Purse()), [NewJob(1).(stage := Gone)], map[])
  {
    hide Run, Faults, Purse;
    RunOfTwo(Beginning(), Enqueue(1), DieEnqueuing(0));
    var job := NewJob(1);
    assert Apply(Beginning(), Enqueue(1)) == System(Account(1, 1, Purse()), [job], map[]);
  }

  // ----- exactly which interruptions do harm -----

  ghost predicate NeverMisses(faults: set<Fault>) {
    forall s, actions, h ::
      Initial(s) && Faults(s, actions) <= faults && h in Run(s, actions).handlers ==>
        Works(Run(s, actions), h)
        && GuardHolds(Run(s, actions).account, JobOf(Run(s, actions), h), Run(s, actions).handlers[h].pc)
  }

  ghost predicate AlwaysBalanced(faults: set<Fault>) {
    forall s, actions ::
      Initial(s) && Faults(s, actions) <= faults && Rests(Run(s, actions)) ==> Drift(Run(s, actions).account) == 0
  }

  ghost predicate NeverNegative(faults: set<Fault>) {
    forall s, actions :: Initial(s) && Faults(s, actions) <= faults ==> Run(s, actions).account.available >= 0
  }

  ghost predicate Accounted(s: System) {
    Rests(s) ==> s.account.reserved == Sum(s.jobs, Due)
  }

  ghost predicate AlwaysAccounted(faults: set<Fault>) {
    forall s, actions :: Initial(s) && Faults(s, actions) <= faults ==> Accounted(Run(s, actions))
  }

  /** Every capture and every release finds its credits, in every run, exactly when no reservation can be used twice. */
  lemma NeverMissesExactly(faults: set<Fault>)
    ensures NeverMisses(faults) <==> faults !! Doubling()
  {
    hide Initial, GuardHolds, Doubling, Run, Faults;
    if faults !! Doubling() {
      forall s, actions, h | Initial(s) && Faults(s, actions) <= faults && h in Run(s, actions).handlers
        ensures Works(Run(s, actions), h)
        ensures GuardHolds(Run(s, actions).account, JobOf(Run(s, actions), h), Run(s, actions).handlers[h].pc)
      {
        hide Inv;
        InitialInv(s);
        RunKeeps(s, actions);
        SoundHandler(Run(s, actions), h);
      }
    } else {
      hide Missing, Short;
      var f :| f in faults && f in Doubling();
      var actions := DoublingEndsShort(f);
      var t, n := Run(Beginning(), actions), |Run(Beginning(), actions).jobs|;
      ShortMisses(t, n);
      NothingToCapture(Run(t, Missing(n)).account, JobOf(Run(t, Missing(n)), 9));
      RunOfSum(Beginning(), actions, Missing(n));
      assert Faults(Beginning(), actions + Missing(n)) <= faults;
    }
  }

  function NegativeRun(f: Fault): seq<Action> {
    if f == LostCapture then BeforeCapture() + [Die(1)] + [Deliver(2, 0)] + Working(2, 2)
    else BeforeCapture() + [Reconcile]
  }

  lemma GoesNegative(f: Fault) returns (actions: seq<Action>)
    requires f != LostRelease && f != LostEnqueue && f != LateGrant
    ensures Initial(Beginning()) && Faults(Beginning(), actions) <= {f}
    ensures Run(Beginning(), actions).account.available < 0
  {
    hide Run, Faults, Initial, Beginning, BeforeCapture, Working, Short, Taking, SendAndSettle;
    if f in Doubling() {
      actions := DoublingEndsShort(f);
      var t, n := Run(Beginning(), actions), |Run(Beginning(), actions).jobs|;
      ShortGoesNegative(t, n);
      RunOfSum(Beginning(), actions, Taking(n) + SendAndSettle(9, n));
      actions := actions + (Taking(n) + SendAndSettle(9, n));
    } else {
      PurseHoldsTwo();
      actions := NegativeRun(f);
      if f == LostCapture {
        InterruptionGoesNegative(actions);
      } else {
        EarlyReconcileGoesNegative(actions);
      }
    }
  }

  /** Available credits never go below zero, in every run, exactly when nothing comes between a handler and its money
      but lost releases and lost enqueues, which only keep credits reserved, and late grants. */
  lemma NeverNegativeExactly(faults: set<Fault>)
    ensures NeverNegative(faults) <==> faults <= {LostRelease, LostEnqueue, LateGrant}
  {
    hide Initial, Run, Faults;
    if faults <= {LostRelease, LostEnqueue, LateGrant} {
      forall s, actions | Initial(s) && Faults(s, actions) <= faults
        ensures Run(s, actions).account.available >= 0
      {
        hide Inv, NoneStranded;
        InitialIsSound(s);
        RunIsNotNegative(s, actions);
      }
    } else {
      var f :| f in faults && f != LostRelease && f != LostEnqueue && f != LateGrant;
      var actions := GoesNegative(f);
    }
  }

  lemma InitialIsSound(s: System)
    requires Initial(s)
    ensures Inv(s) && NoneStranded(s) && NoneLeaked(s) && s.account.available >= 0 && Even(s)
  {
  }

  lemma GoesUnaccounted(f: Fault) returns (actions: seq<Action>)
    requires f != EarlyReconcile && f != LateGrant
    ensures Initial(Beginning()) && Faults(Beginning(), actions) <= {f}
    ensures !Accounted(Run(Beginning(), actions))
  {
    hide Run, Faults, Initial, Beginning, BeforeCapture, BothQueued, Claim1, Working, Short, Sum, Purse;
    PurseHoldsTwo();
    if f in Doubling() {
      actions := DoublingEndsShort(f);
      ShortIsUnaccounted(Run(Beginning(), actions));
    } else if f == LostCapture {
      actions := BeforeCapture() + [Die(1)] + [Deliver(2, 0)] + Working(2, 2);
      InterruptionGoesNegative(actions);
      DueOfTwo(Chargeable(Sent, true, true, None));
    } else if f == LostRelease {
      actions := BothQueued() + Claim1() + [FailForGood(1), Die(1)];
      LostReleaseIsUnaccounted(actions);
      DueOfTwo(Chargeable(Failed, false, true, None));
    } else {
      actions := [Enqueue(1), DieEnqueuing(0)];
      LostEnqueueIsUnaccounted(actions);
      SumOfNothing([NewJob(1).(stage := Gone)], Due);
    }
  }

  lemma DueOfTwo(job: SendJob)
    requires Due(job) == 0
    ensures Sum([job, Fresh()], Due) == 1
  {
    assert [job, Fresh()][1..] == [Fresh()] && [Fresh()][1..] == [];
    assert Sum([Fresh()], Due) == 1 + Sum([], Due);
  }

  /** Whenever no handler stands before a capture or a release, reserved credits are exactly what is due, in every run,
      exactly when nothing comes between a handler and its money but early reconciles and late grants, which only
      touch the available credits. */
  lemma AccountedExactly(faults: set<Fault>)
    ensures AlwaysAccounted(faults) <==> faults <= {EarlyReconcile, LateGrant}
  {
    hide Initial, Run, Faults, Accounted;
    if faults <= {EarlyReconcile, LateGrant} {
      forall s, actions | Initial(s) && Faults(s, actions) <= faults
        ensures Accounted(Run(s, actions))
      {
        AccountedRun(s, actions);
      }
    } else {
      var f :| f in faults && f != EarlyReconcile && f != LateGrant;
      var actions := GoesUnaccounted(f);
    }
  }

  lemma AccountedRun(s: System, actions: seq<Action>)
    requires Initial(s) && Faults(s, actions) <= {EarlyReconcile, LateGrant}
    ensures Accounted(Run(s, actions))
  {
    hide Initial, Run, Faults, Inv, NoneStranded, NoneLeaked, Rests, Sum;
    InitialIsSound(s);
    RunLosesNothing(s, actions);
    if Rests(Run(s, actions)) {
      NothingMissingNow(Run(s, actions));
    }
  }

  lemma GoesUnbalanced(f: Fault) returns (actions: seq<Action>)
    requires f != LostRelease && f != LostEnqueue
    ensures Initial(Beginning()) && Faults(Beginning(), actions) <= {f}
    ensures Rests(Run(Beginning(), actions)) && Drift(Run(Beginning(), actions).account) != 0
  {
    hide Run, Faults, Initial, Beginning, BeforeCapture, Short, Missing, LedgerSum, Drift;
    PurseHoldsTwo();
    if f in Doubling() {
      actions := DoublingEndsShort(f);
      var t, n := Run(Beginning(), actions), |Run(Beginning(), actions).jobs|;
      ShortUnbalances(t, n);
      RunOfSum(Beginning(), actions, Missing(n) + [Work(9), Die(9)]);
      actions := actions + (Missing(n) + [Work(9), Die(9)]);
    } else if f == LostCapture {
      actions := BeforeCapture() + [Die(1)];
      DiesUnbalanced(actions);
    } else if f == EarlyReconcile {
      actions := BeforeCapture() + [Reconcile] + [Work(1), Die(1)];
      ReconcilesUnbalanced(actions);
    } else {
      actions := [Grant(1)];
      GrantsUnbalanced();
    }
  }

  lemma DiesUnbalanced(actions: seq<Action>)
    requires actions == BeforeCapture() + [Die(1)]
    ensures Faults(Beginning(), actions) == {LostCapture}
    ensures var t := Run(Beginning(), actions); t.handlers == map[] && Drift(t.account) == 1
  {
    hide Run, Faults, BeforeCapture, Purse, Fresh, Beginning, HasEntry, LedgerSum;
    StandsBeforeCapture();
    PurseAfterDebit();
    var s := Debited2(0, 2, Chargeable(Sent, true, true, Some(1)), map[1 := Handler(0, Capturing)]);
    RunOfOne(s, Die(1));
    assert s.handlers - {1} == map[];
    RunOfSum(Beginning(), BeforeCapture(), [Die(1)]);
  }

  lemma ReconcilesUnbalanced(actions: seq<Action>)
    requires actions == BeforeCapture() + [Reconcile] + [Work(1), Die(1)]
    ensures Faults(Beginning(), actions) == {EarlyReconcile}
    ensures var t := Run(Beginning(), actions); t.handlers == map[] && Drift(t.account) == -1
  {
    hide Run, Faults, BeforeCapture, Purse, Fresh, Beginning, HasEntry, LedgerSum;
    StandsBeforeCapture();
    PurseAfterDebit();
    var s := Debited2(0, 2, Chargeable(Sent, true, true, Some(1)), map[1 := Handler(0, Capturing)]);
    var t := s.(account := Reconciled(s.account));
    RunOfOne(s, Reconcile);
    assert s.handlers[1].pc == Capturing;
    RunOfSum(Beginning(), BeforeCapture(), [Reconcile]);
    CapturesAndDies(t, 1);
    assert t.handlers - {1} == map[];
    RunOfSum(Beginning(), BeforeCapture() + [Reconcile], [Work(1), Die(1)]);
  }

  lemma GrantsUnbalanced()
    ensures Faults(Beginning(), [Grant(1)]) == {LateGrant}
    ensures var t := Run(Beginning(), [Grant(1)]); t.handlers == map[] && Drift(t.account) == -1
  {
    hide Run, Faults, HasEntry, LedgerSum, Purse;
    PurseHoldsTwo();
    RunOfOne(Beginning(), Grant(1));
    AppendedLedger(Beginning().account, Entry(NoReference, 1), NoReference);
  }

  /** Whenever no handler stands before a capture or a release, available and reserved credits together are the ledger,
      in every run, exactly when nothing comes between a handler and its money but lost releases and lost enqueues. */
  lemma BalancedExactly(faults: set<Fault>)
    ensures AlwaysBalanced(faults) <==> faults <= {LostRelease, LostEnqueue}
  {
    hide Initial, Run, Faults, Rests, Drift;
    if faults <= {LostRelease, LostEnqueue} {
      forall s, actions | Initial(s) && Faults(s, actions) <= faults && Rests(Run(s, actions))
        ensures Drift(Run(s, actions).account) == 0
      {
        hide Inv, NoneStranded, Even;
        InitialIsSound(s);
        RunIsEven(s, actions);
        EvenAtRest(Run(s, actions));
      }
    } else {
      var f :| f in faults && f != LostRelease && f != LostEnqueue;
      var actions := GoesUnbalanced(f);
    }
  }
}
