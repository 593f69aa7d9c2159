/** How often one outbound job is tried, that its work ends, and what `sent` stands for. */
module OutboundAttempts {
  import opened Jobs
  import opened Text
  import opened OutboundProtocol

  // ----- the number of attempts -----

  /** The retry count keeps step with the claims. */
  predicate CountInv(c: Config, s: Shared) {
    && s.claims <= c.maxRetries + 1
    && (Claimable(s.job.status) ==> s.claims == s.job.retryCount <= c.maxRetries)
    && (s.holder.Some? && c.maxRetries > 0 ==> s.claims == s.job.retryCount + 1)
  }

  /** The holder of the claim counts from the current retry count once it has read the job again. */
  predicate CountWorkerInv(c: Config, s: Shared, id: nat, w: Worker) {
    c.maxRetries > 0 && s.holder == Some(id) && (w.pc.Send? || w.pc.CatchJob?) ==> Current(s, w)
  }

  ghost predicate AllCounted(c: Config, s: State) {
    CountInv(c, s.shared) && forall id :: id in s.workers ==> CountWorkerInv(c, s.shared, id, s.workers[id])
  }

  /** Faults under which the accounting holds. */
  predicate Tame(c: Config, f: Fault) {
    c.maxRetries == 0 && f != FirstRead
  }

  predicate AllTame(c: Config, faults: set<Fault>) {
    forall f :: f in faults ==> Tame(c, f)
  }

  predicate Counted(c: Config, id: nat, s: Shared, r: (Shared, Worker)) {
    && CountInv(c, r.0) && CountWorkerInv(c, r.0, id, r.1)
    && (r.0.job.retryCount != s.job.retryCount ==> r.0.holder == None || c.maxRetries == 0)
  }

  lemma CatchCounts(c: Config, id: nat, s: Shared, w: Worker)
    requires w.pc.CatchJob? && SharedInv(s) && WorkerInv(c, s, id, w)
    requires CountInv(c, s) && CountWorkerInv(c, s, id, w)
    ensures Counted(c, id, s, Advance(c, id, s, w))
  {
    CatchStep(c, id, s, w);
    CatchGoesOn(c, id, s, w);
    hide Advance;
  }

  lemma CatchGoesOn(c: Config, id: nat, s: Shared, w: Worker)
    requires w.pc.CatchJob?
    ensures !HoldsClaim(Advance(c, id, s, w).1.pc) && !Advance(c, id, s, w).1.pc.CatchJob?
  {
    hide CatchWrite, Exhausted;
  }

  /** Only the re-read leads to the sending step, and nothing leads to the catch block but an exception. */
  lemma WorkerGoesOn(c: Config, id: nat, s: Shared, w: Worker)
    ensures var v := Advance(c, id, s, w).1;
            (v.pc.CatchJob? ==> false) && (v.pc.Send? ==> w.pc.Reread? && v.job == Some(s.job))
  {
    hide CatchWrite, Exhausted, WithStatus, WithMessage, WithDraft, Released, TerminalDeliveryOutcome;
  }

  lemma AdvanceCounts(c: Config, id: nat, s: Shared, w: Worker)
    requires SharedInv(s) && WorkerInv(c, s, id, w) && CountInv(c, s) && CountWorkerInv(c, s, id, w)
    ensures Counted(c, id, s, Advance(c, id, s, w))
  {
    hide Advance, CatchWrite, Branch;
    if w.pc.CatchJob? {
      CatchCounts(c, id, s, w);
    } else {
      WorkerGoesOn(c, id, s, w);
      if Quiet(w.pc) {
        QuietStep(c, id, s, w);
      } else if WritesFinal(w.pc) {
        FinalStep(c, id, s, w);
      } else {
        ClaimOrSendStep(c, id, s, w);
      }
    }
  }

  lemma ThrowCounts(c: Config, id: nat, s: Shared, w: Worker, policy: bool)
    requires SharedInv(s) && WorkerInv(c, s, id, w) && CountInv(c, s) && CountWorkerInv(c, s, id, w)
    requires AllTame(c, FaultsAt(State(s, map[id := w]), Throws(id, policy)))
    ensures Counted(c, id, s, Throw(c, id, s, w, policy))
  {
    hide Branch;
    if c.maxRetries > 0 && HoldsClaim(w.pc) && !w.pc.Send? {
      assert StaleReread !in FaultsAt(State(s, map[id := w]), Throws(id, policy));
      assert Current(s, w);
    }
  }

  lemma PutCounts(c: Config, s: State, id: nat, r: (Shared, Worker))
    requires Inv(c, s) && AllCounted(c, s) && id in s.workers
    requires HolderMoves(id, s.shared, r.0) && Counted(c, id, s.shared, r)
    ensures AllCounted(c, Put(s, id, r))
  {
    hide CountInv, SharedInv, WorkerInv;
  }

  lemma ApplyCounts(c: Config, s: State, a: Action)
    requires Inv(c, s) && AllCounted(c, s) && AllTame(c, FaultsAt(s, a))
    ensures AllCounted(c, Apply(c, s, a))
  {
    hide SharedInv, WorkerInv, CountInv, CountWorkerInv, Kept, Counted, Advance, Throw, Put, Started, Released;
    hide HolderMoves;
    match a
    case Deliver(id) => StartCounts(c, s, id, ReadJob);
    case Event(id, kind, hasId) => StartCounts(c, s, id, HookRecord(kind, hasId));
    case Step(id) =>
      if id in s.workers {
        AdvanceMoves(c, id, s.shared, s.workers[id]);
        AdvanceCounts(c, id, s.shared, s.workers[id]);
        PutCounts(c, s, id, Advance(c, id, s.shared, s.workers[id]));
      }
    case Throws(id, policy) =>
      if id in s.workers {
        ThrowMoves(c, id, s.shared, s.workers[id], policy);
        ThrowCounts(c, id, s.shared, s.workers[id], policy);
        PutCounts(c, s, id, Throw(c, id, s.shared, s.workers[id], policy));
      }
    case ThrowsTwice(id) =>
      if id in s.workers && DeadLettered(s.workers[id].pc) {
        assert DeadLetter in FaultsAt(s, a);
        StopCounts(c, s.shared, id, s.workers[id], CatchJob(false));
        PutCounts(c, s, id, (s.shared, At(s.workers[id], CatchJob(false))));
      }
    case Dies(id) =>
      if id in s.workers {
        DeathCounts(c, s.shared, id, s.workers[id]);
        PutCounts(c, s, id, (Released(s.shared, id), At(s.workers[id], Stopped)));
      }
    case Tick(elapsed) =>
      ClockCounts(c, s, elapsed);
  }

  lemma AdvanceMoves(c: Config, id: nat, s: Shared, w: Worker)
    requires SharedInv(s) && WorkerInv(c, s, id, w)
    ensures HolderMoves(id, s, Advance(c, id, s, w).0)
  {
    hide Advance, SharedInv, WorkerInv;
    AdvanceKeeps(c, id, s, w);
  }

  lemma ThrowMoves(c: Config, id: nat, s: Shared, w: Worker, policy: bool)
    ensures HolderMoves(id, s, Throw(c, id, s, w, policy).0)
  {
  }

  lemma StopCounts(c: Config, s: Shared, id: nat, w: Worker, pc: Pc)
    requires CountInv(c, s) && c.maxRetries == 0
    ensures HolderMoves(id, s, s) && Counted(c, id, s, (s, At(w, pc)))
  {
  }

  lemma DeathCounts(c: Config, s: Shared, id: nat, w: Worker)
    requires CountInv(c, s)
    ensures var r := (Released(s, id), At(w, Stopped)); HolderMoves(id, s, r.0) && Counted(c, id, s, r)
  {
  }

  lemma ClockCounts(c: Config, s: State, elapsed: nat)
    requires AllCounted(c, s)
    ensures AllCounted(c, s.(shared := s.shared.(clock := s.shared.clock + elapsed)))
  {
  }

  lemma StartCounts(c: Config, s: State, id: nat, pc: Pc)
    requires AllCounted(c, s) && (pc.ReadJob? || IsHook(pc))
    ensures AllCounted(c, Started(s, id, pc))
  {
    hide CountInv;
  }

  lemma TameIsHarmless(c: Config, faults: set<Fault>)
    requires AllTame(c, faults)
    ensures AllHarmless(c, faults)
  {
  }

  lemma {:induction false} RunCounts(c: Config, s: State, actions: seq<Action>)
    requires Inv(c, s) && AllCounted(c, s) && AllTame(c, Faults(c, s, actions))
    ensures AllCounted(c, Run(c, s, actions))
    decreases |actions|
  {
    hide Inv, AllCounted, Apply, FaultsAt, Tame, Harmless, AllHarmless;
    if actions != [] {
      TameIsHarmless(c, FaultsAt(s, actions[0]));
      ApplyKeeps(c, s, actions[0]);
      ApplyCounts(c, s, actions[0]);
      RunCounts(c, Apply(c, s, actions[0]), actions[1..]);
    }
  }

  /** A job makes at most `maxRetries + 1` claimed attempts. */
  lemma AttemptsBounded(c: Config, s: State, actions: seq<Action>)
    requires Initial(s) && AllTame(c, Faults(c, s, actions))
    ensures Run(c, s, actions).shared.claims <= c.maxRetries + 1
  {
    hide Run, Faults, AllTame;
    RunCounts(c, s, actions);
  }

  // ----- without a current snapshot there is no bound -----

  /** `n` deliveries that have read the job and stand before the claim. */
  function Crowd(n: nat): seq<Action> {
    if n == 0 then [] else Crowd(n - 1) + ([Deliver(n - 1)] + Steps(n - 1, 4))
  }

  /** Handlers `from` to `n` stand before the claim with a snapshot from before the first attempt. */
  ghost predicate Waiting(s: State, from: nat, n: nat) {
    (forall id :: id in s.workers ==> id < n)
    && forall id :: from <= id < n ==>
         id in s.workers && s.workers[id].pc == Claim && s.workers[id].job == Some(JobRow(Queued, 0, 0))
  }

  lemma {:induction false} CrowdWaits(c: Config, n: nat)
    ensures var s := Run(c, Start(), Crowd(n)); s.shared == Start().shared && Waiting(s, 0, n)
    ensures Faults(c, Start(), Crowd(n)) == {}
  {
    hide Run, Faults, Apply, AdvanceN;
    if n == 0 {
      EmptyRun(c, Start());
    } else {
      CrowdWaits(c, n - 1);
      var s, id := Run(c, Start(), Crowd(n - 1)), n - 1;
      Arrives(c, s, id);
      RunOfSum(c, Start(), Crowd(n - 1), [Deliver(id)] + Steps(id, 4));
    }
  }

  lemma EmptyRun(c: Config, s: State)
    ensures Run(c, s, []) == s && Faults(c, s, []) == {}
  {
  }

  lemma Arrives(c: Config, s: State, id: nat)
    requires id !in s.workers && s.shared == Start().shared
    ensures var t := Run(c, s, [Deliver(id)] + Steps(id, 4));
            t.shared == s.shared && t.workers.Keys == s.workers.Keys + {id}
            && t.workers[id].pc == Claim && t.workers[id].job == Some(JobRow(Queued, 0, 0))
            && forall other :: other in s.workers ==> t.workers[other] == s.workers[other]
    ensures Faults(c, s, [Deliver(id)] + Steps(id, 4)) == {}
  {
    hide Run, Faults, Advance, AdvanceN;
    var t := Started(s, id, ReadJob);
    RunOfOne(c, s, Deliver(id));
    RunOfSteps(c, t, id, 4);
    ReadsOpen(c, id, s.shared);
    RunOfSum(c, s, [Deliver(id)], Steps(id, 4));
  }

  /** Claim, an exception in the read that follows it, and the status write of the catch block. */
  function Burn(id: nat): seq<Action> {
    [Step(id), Throws(id, false), Step(id)]
  }

  lemma RunOfBurn(c: Config, s: State, id: nat)
    ensures var s1 := Apply(c, s, Step(id)); var s2 := Apply(c, s1, Throws(id, false));
            Run(c, s, Burn(id)) == Apply(c, s2, Step(id))
            && Faults(c, s, Burn(id))
               == FaultsAt(s, Step(id)) + FaultsAt(s1, Throws(id, false)) + FaultsAt(s2, Step(id))
  {
    hide Apply, FaultsAt;
    var s1 := Apply(c, s, Step(id));
    var s2 := Apply(c, s1, Throws(id, false));
    RunOfTwo(c, s, Step(id), Throws(id, false));
    RunOfOne(c, s2, Step(id));
    RunOfSum(c, s, [Step(id), Throws(id, false)], [Step(id)]);
    assert Burn(id) == [Step(id), Throws(id, false)] + [Step(id)];
  }

  lemma BurnReopens(c: Config, s: State, id: nat, n: nat)
    requires c.maxRetries > 0 && id < n && Waiting(s, id, n)
    requires Claimable(s.shared.job.status) && s.shared.holder == None
    ensures var t := Run(c, s, Burn(id));
            Waiting(t, id + 1, n) && t.shared.job.status == Retry && t.shared.holder == None
            && t.shared.claims == s.shared.claims + 1
    ensures Faults(c, s, Burn(id)) <= {StaleReread}
  {
    hide Run, Faults, Advance;
    RunOfBurn(c, s, id);
    var w := s.workers[id];
    ClaimOrSendStep(c, id, s.shared, w);
    ClaimGoesOn(c, id, s.shared, w);
    var s1 := Apply(c, s, Step(id));
    var s2 := Apply(c, s1, Throws(id, false));
    CatchStep(c, id, s2.shared, s2.workers[id]);
  }

  lemma ClaimGoesOn(c: Config, id: nat, s: Shared, w: Worker)
    requires w.pc == Claim && Claimable(s.job.status)
    ensures Advance(c, id, s, w).1 == At(w, ConfirmClaim)
  {
  }

  function BurnAll(id: nat, n: nat): seq<Action>
    requires id <= n
    decreases n - id
  {
    if id == n then [] else Burn(id) + BurnAll(id + 1, n)
  }

  lemma {:induction false} BurnAllReopens(c: Config, s: State, id: nat, n: nat)
    requires c.maxRetries > 0 && id <= n && Waiting(s, id, n)
    requires Claimable(s.shared.job.status) && s.shared.holder == None
    ensures Run(c, s, BurnAll(id, n)).shared.claims == s.shared.claims + n - id
    ensures Faults(c, s, BurnAll(id, n)) <= {StaleReread}
    decreases n - id
  {
    hide Run, Faults, Apply, Waiting;
    if id == n {
      EmptyRun(c, s);
    } else {
      BurnReopens(c, s, id, n);
      BurnAllReopens(c, Run(c, s, Burn(id)), id + 1, n);
      RunOfSum(c, s, Burn(id), BurnAll(id + 1, n));
    }
  }

  /** When the reads that follow a claim may throw, each handler counts from the snapshot it took before any
      attempt was made. */
  lemma BurnsAreUnbounded(c: Config, n: nat) returns (actions: seq<Action>)
    requires c.maxRetries > 0
    ensures Faults(c, Start(), actions) <= {StaleReread}
    ensures Run(c, Start(), actions).shared.claims == n
  {
    hide Run, Faults, Waiting;
    CrowdWaits(c, n);
    BurnAllReopens(c, Run(c, Start(), Crowd(n)), 0, n);
    RunOfSum(c, Start(), Crowd(n), BurnAll(0, n));
    actions := Crowd(n) + BurnAll(0, n);
  }

  // ----- nor is there one when a handler without a claim reaches the catch block -----

  /** A delivery that is thrown into its catch block without a claim. */
  function Stray(f: Fault, id: nat): seq<Action> {
    [Deliver(id)] + Steps(id, if f == FirstRead then 0 else 4)
    + [if f == DeadLetter then ThrowsTwice(id) else Throws(id, false)]
  }

  /** Rows with which a delivery runs into the fault, as no retry is counted yet. */
  predicate Trips(c: Config, f: Fault, s: Shared) {
    && s.holder == None && s.job.retryCount == 0
    && match f
       case FirstRead => true
       case BeforeClaim => Claimable(s.job.status)
       case InDoubtWrite =>
         s.job.status == Sending && s.message == MessageRow(Open, false) && !s.delivered && !s.bounced
         && s.clock - s.job.updatedAt >= c.grace
       case DeadLetter => s.job.status == Sent
       case StaleReread => false
  }

  predicate Astray(c: Config, w: Worker) {
    w.pc == CatchJob(false) && !Exhausted(c, w, false)
  }

  lemma StrayGoesAstray(c: Config, f: Fault, s: State, id: nat)
    requires !Harmless(c, f) && id !in s.workers && Trips(c, f, s.shared)
    ensures var t := Run(c, s, Stray(f, id));
            t.shared == s.shared && t.workers.Keys == s.workers.Keys + {id} && Astray(c, t.workers[id])
            && forall other :: other in s.workers ==> t.workers[other] == s.workers[other]
    ensures Faults(c, s, Stray(f, id)) == {f}
  {
    hide Run, Faults, Advance, AdvanceN;
    var n := if f == FirstRead then 0 else 4;
    var last := if f == DeadLetter then ThrowsTwice(id) else Throws(id, false);
    var s1 := Started(s, id, ReadJob);
    var s2 := Put(s1, id, AdvanceN(c, id, s1.shared, s1.workers[id], n));
    RunOfOne(c, s, Deliver(id));
    RunOfSteps(c, s1, id, n);
    RunOfSum(c, s, [Deliver(id)], Steps(id, n));
    RunOfOne(c, s2, last);
    RunOfSum(c, s, [Deliver(id)] + Steps(id, n), [last]);
    StrayReads(c, f, s.shared, id);
  }

  /** Where the reads leave a delivery that is about to run into the fault. */
  lemma StrayReads(c: Config, f: Fault, s: Shared, id: nat)
    requires Trips(c, f, s)
    ensures var w := Worker(ReadJob, None, MessageRow(Open, false), Open);
            var r := AdvanceN(c, id, s, w, if f == FirstRead then 0 else 4);
            r.0 == s && r.1.job == (if f == FirstRead then None else Some(s.job))
            && r.1.pc == match f
                         case FirstRead => ReadJob
                         case BeforeClaim => Claim
                         case InDoubtWrite => InDoubtJob
                         case DeadLetter => SentMessage
                         case StaleReread => ReadJob
  {
    hide Advance, AdvanceN;
    ReadsOpen(c, id, s);
    NoSteps(c, id, s, Worker(ReadJob, None, MessageRow(Open, false), Open));
  }

  lemma NoSteps(c: Config, id: nat, s: Shared, w: Worker)
    ensures AdvanceN(c, id, s, w, 0) == (s, w)
  {
  }

  function Strays(f: Fault, n: nat): seq<Action> {
    if n == 0 then [] else Strays(f, n - 1) + Stray(f, n)
  }

  /** Handlers `from` to `n` stand in their catch blocks, none with its last retry, and higher ids are free. */
  ghost predicate Gathered(c: Config, s: State, from: nat, n: nat, free: nat) {
    (forall id :: id in s.workers ==> id < free)
    && forall id :: from <= id <= n ==> id in s.workers && Astray(c, s.workers[id])
  }

  lemma {:induction false} StraysGather(c: Config, f: Fault, s: State, n: nat)
    requires !Harmless(c, f) && s.workers.Keys <= {0} && Trips(c, f, s.shared)
    ensures var t := Run(c, s, Strays(f, n)); t.shared == s.shared && Gathered(c, t, 1, n, n + 1)
    ensures Faults(c, s, Strays(f, n)) <= {f}
    decreases n
  {
    hide Run, Faults, Stray, Astray, Trips;
    if n == 0 {
      EmptyRun(c, s);
    } else {
      StraysGather(c, f, s, n - 1);
      var t := Run(c, s, Strays(f, n - 1));
      StrayGoesAstray(c, f, t, n);
      RunOfSum(c, s, Strays(f, n - 1), Stray(f, n));
    }
  }

  /** One catch block after the other reopens the job, and after each a new delivery claims it. */
  function Reclaims(id: nat, n: nat): seq<Action>
    requires id <= n + 1
    decreases n + 1 - id
  {
    if id == n + 1 then [] else ([Step(id)] + Delivery8(n + id)) + Reclaims(id + 1, n)
  }

  lemma Reclaimed(c: Config, s: State, id: nat, n: nat)
    requires 1 <= id <= n && Gathered(c, s, id, n, n + id) && s.shared.holder == None
    ensures var t := Run(c, s, [Step(id)] + Delivery8(n + id));
            Gathered(c, t, id + 1, n, n + id + 1) && t.shared.holder == None && t.shared.claims == s.shared.claims + 1
    ensures Faults(c, s, [Step(id)] + Delivery8(n + id)) == {}
  {
    hide Run, Faults, Advance, Delivery8, Exhausted;
    var t := Apply(c, s, Step(id));
    RunOfOne(c, s, Step(id));
    CatchReopens(c, s, id);
    DeliverySends(c, t, n + id);
    RunOfSum(c, s, [Step(id)], Delivery8(n + id));
    assert forall other :: other in s.workers && other != id ==> t.workers[other] == s.workers[other];
  }

  lemma {:induction false} ReclaimsAdd(c: Config, s: State, id: nat, n: nat)
    requires 1 <= id <= n + 1 && Gathered(c, s, id, n, n + id) && s.shared.holder == None
    ensures Run(c, s, Reclaims(id, n)).shared.claims == s.shared.claims + n + 1 - id
    ensures Faults(c, s, Reclaims(id, n)) == {}
    decreases n + 1 - id
  {
    hide Run, Faults, Gathered, Delivery8;
    if id == n + 1 {
      EmptyRun(c, s);
    } else {
      var round := [Step(id)] + Delivery8(n + id);
      Reclaimed(c, s, id, n);
      ReclaimsAdd(c, Run(c, s, round), id + 1, n);
      RunOfSum(c, s, round, Reclaims(id + 1, n));
    }
  }

  /** Brings the rows to where a delivery runs into the fault. */
  function Prelude(c: Config, f: Fault): seq<Action> {
    match f
    case InDoubtWrite => Delivery8(0) + [Dies(0), Tick(c.grace)]
    case DeadLetter => Delivery8(0) + [Step(0)]
    case _ => []
  }

  lemma PreludeTrips(c: Config, f: Fault)
    requires f != StaleReread
    ensures var s := Run(c, Start(), Prelude(c, f)); s.workers.Keys <= {0} && Trips(c, f, s.shared)
    ensures Faults(c, Start(), Prelude(c, f)) == {}
  {
    hide Run, Faults, Delivery8, Advance;
    match f
    case InDoubtWrite =>
      OnceIs(c);
      RunOfTwo(c, Once(c), Dies(0), Tick(c.grace));
      RunOfSum(c, Start(), Delivery8(0), [Dies(0), Tick(c.grace)]);
    case DeadLetter =>
      OnceIs(c);
      RunOfOne(c, Once(c), Step(0));
      FinishJobStep(c, Once(c).shared, Once(c).workers[0]);
      RunOfSum(c, Start(), Delivery8(0), [Step(0)]);
    case _ => EmptyRun(c, Start());
  }

  lemma FinishJobStep(c: Config, s: Shared, w: Worker)
    requires w.pc == FinishJob
    ensures Advance(c, 0, s, w).0 == WithStatus(s, Sent)
  {
  }

  lemma StraysAreUnbounded(c: Config, f: Fault, n: nat) returns (actions: seq<Action>)
    requires !Harmless(c, f)
    ensures Faults(c, Start(), actions) <= {f}
    ensures Run(c, Start(), actions).shared.claims >= n
  {
    hide Run, Faults, Prelude, Trips, Gathered, Harmless;
    assert f != StaleReread by { StaleIsHarmless(c); }
    var s := Run(c, Start(), Prelude(c, f));
    PreludeTrips(c, f);
    StraysGather(c, f, s, n);
    assert s.shared.holder == None by { TripsFree(c, f, s.shared); }
    ReclaimsAdd(c, Run(c, s, Strays(f, n)), 1, n);
    RunOfSum(c, Start(), Prelude(c, f), Strays(f, n));
    RunOfSum(c, Start(), Prelude(c, f) + Strays(f, n), Reclaims(1, n));
    actions := Prelude(c, f) + Strays(f, n) + Reclaims(1, n);
  }

  lemma StaleIsHarmless(c: Config)
    ensures Harmless(c, StaleReread)
  {
  }

  lemma TripsFree(c: Config, f: Fault, s: Shared)
    requires Trips(c, f, s)
    ensures s.holder == None
  {
  }

  // ----- exactly when the attempts are bounded -----

  /** Each fault that is not tame allows any number of attempts, all by itself. */
  lemma AttemptsUnbounded(c: Config, f: Fault, n: nat) returns (actions: seq<Action>)
    requires !Tame(c, f)
    ensures Initial(Start()) && Faults(c, Start(), actions) <= {f}
    ensures Run(c, Start(), actions).shared.claims >= n
  {
    hide Run, Faults;
    if f == StaleReread {
      actions := BurnsAreUnbounded(c, n);
    } else {
      actions := StraysAreUnbounded(c, f, n);
    }
  }

  ghost predicate AlwaysBounded(c: Config, faults: set<Fault>) {
    forall s, actions ::
      Initial(s) && Faults(c, s, actions) <= faults ==> Run(c, s, actions).shared.claims <= c.maxRetries + 1
  }

  /** Every run keeps to `maxRetries + 1` attempts exactly when the catch block is left to the holder of the
      claim with a current retry count, or when there are no retries to write. */
  lemma BoundedExactlyWhenTame(c: Config, faults: set<Fault>)
    ensures AlwaysBounded(c, faults) <==> AllTame(c, faults)
  {
    hide Initial, Tame;
    if AllTame(c, faults) {
      forall s, actions | Initial(s) && Faults(c, s, actions) <= faults
        ensures Run(c, s, actions).shared.claims <= c.maxRetries + 1
      {
        AttemptsBounded(c, s, actions);
      }
    } else {
      var f :| f in faults && !Tame(c, f);
      var actions := AttemptsUnbounded(c, f, c.maxRetries + 2);
    }
  }

  // ----- the work ends -----

  function Rank(status: JobStatus): nat {
    if Claimable(status) then 2 else if status == Sending then 1 else 0
  }

  /** Remaining retries first, then how far the job is from a final status. */
  function Measure(c: Config, s: Shared): nat {
    (if s.job.retryCount <= c.maxRetries then 3 * (c.maxRetries + 1 - s.job.retryCount) else 0) + Rank(s.job.status)
  }

  predicate Final(status: JobStatus) {
    status == Sent || status == Failed
  }

  /** A status change other than a provider event or a recovery turning one final status into the other. */
  predicate Moves(s: Shared, t: Shared) {
    t.job.status != s.job.status && !(Final(s.job.status) && Final(t.job.status))
  }

  lemma AdvanceFalls(c: Config, id: nat, s: Shared, w: Worker)
    requires SharedInv(s) && WorkerInv(c, s, id, w) && CountInv(c, s) && CountWorkerInv(c, s, id, w)
    ensures var t := Advance(c, id, s, w).0;
            Measure(c, t) <= Measure(c, s) && (Moves(s, t) ==> Measure(c, t) < Measure(c, s))
  {
    hide Advance, CatchWrite;
    if Quiet(w.pc) {
      QuietStep(c, id, s, w);
    } else if WritesFinal(w.pc) {
      FinalStep(c, id, s, w);
    } else if w.pc.CatchJob? {
      CatchFalls(c, id, s, w);
    } else {
      ClaimOrSendStep(c, id, s, w);
    }
  }

  lemma CatchFalls(c: Config, id: nat, s: Shared, w: Worker)
    requires w.pc.CatchJob?
    requires WorkerInv(c, s, id, w) && CountInv(c, s) && CountWorkerInv(c, s, id, w)
    ensures var t := Advance(c, id, s, w).0;
            Measure(c, t) <= Measure(c, s) && (Moves(s, t) ==> Measure(c, t) < Measure(c, s))
  {
    hide Advance;
    CatchStep(c, id, s, w);
  }

  lemma StepFalls(c: Config, s: State, a: Action)
    requires Inv(c, s) && AllCounted(c, s) && FaultsAt(s, a) == {}
    ensures var t := Apply(c, s, a).shared;
            Measure(c, t) <= Measure(c, s.shared) && (Moves(s.shared, t) ==> Measure(c, t) < Measure(c, s.shared))
  {
    hide SharedInv, WorkerInv, CountInv, CountWorkerInv, Advance;
    if a.Step? && a.id in s.workers {
      AdvanceFalls(c, a.id, s.shared, s.workers[a.id]);
    }
  }

  /** How often the status of the job moves during a run. */
  function Changes(c: Config, s: State, actions: seq<Action>): nat
    decreases |actions|
  {
    if actions == [] then 0
    else
      var t := Apply(c, s, actions[0]);
      (if Moves(s.shared, t.shared) then 1 else 0) + Changes(c, t, actions[1..])
  }

  lemma {:induction false} ChangesBounded(c: Config, s: State, actions: seq<Action>)
    requires Inv(c, s) && AllCounted(c, s) && Faults(c, s, actions) == {}
    ensures Changes(c, s, actions) + Measure(c, Run(c, s, actions).shared) <= Measure(c, s.shared)
    decreases |actions|
  {
    hide Inv, AllCounted, Apply, FaultsAt, Measure, Moves;
    if actions != [] {
      ApplyKeeps(c, s, actions[0]);
      ApplyCounts(c, s, actions[0]);
      StepFalls(c, s, actions[0]);
      ChangesBounded(c, Apply(c, s, actions[0]), actions[1..]);
    }
  }

  /** However long the run and however many handlers take part, the job changes status a bounded number of
      times before it stays final. */
  lemma WorkEnds(c: Config, s: State, actions: seq<Action>)
    requires Initial(s) && Faults(c, s, actions) == {}
    ensures Changes(c, s, actions) <= 3 * (c.maxRetries + 1) + 2
  {
    hide Run, Faults, Changes;
    ChangesBounded(c, s, actions);
  }

  // ----- what `sent` stands for -----

  /** The provider accepted, or reported something about the message. */
  predicate Evidence(s: Shared) {
    s.accepted > 0 || s.hooked
  }

  predicate EvidenceInv(s: Shared) {
    s.job.status == Sent || s.message.mark == Done || s.message.provider || s.draft == Done || s.delivered || s.bounced
    ==> Evidence(s)
  }

  /** Places a handler reaches only on evidence. */
  predicate OnEvidence(pc: Pc) {
    pc.SentMessage? || pc.SentDraft? || pc.RecoverMessage? || pc.RecoverDraft? || pc.RecoverJob?
    || pc.FinishJob? || pc.FinishMessage? || pc.FinishDraft? || pc.Settle?
    || (IsHook(pc) && !pc.HookRecord?)
  }

  predicate EvidenceWorkerInv(s: Shared, w: Worker) {
    (OnEvidence(w.pc) || (w.job.Some? && w.job.value.status == Sent) || w.message.mark == Done || w.message.provider
     ==> Evidence(s))
  }

  ghost predicate AllEvident(s: State) {
    EvidenceInv(s.shared) && forall id :: id in s.workers ==> EvidenceWorkerInv(s.shared, s.workers[id])
  }

  predicate Evident(s: Shared, r: (Shared, Worker)) {
    EvidenceInv(r.0) && EvidenceWorkerInv(r.0, r.1) && (Evidence(s) ==> Evidence(r.0))
  }

  lemma ReadIsEvident(c: Config, s: Shared, w: Worker)
    requires EvidenceInv(s) && EvidenceWorkerInv(s, w) && IsRead(w.pc)
    ensures Evident(s, AdvanceRead(c, s, w))
  {
  }

  lemma RecoveryIsEvident(c: Config, s: Shared, w: Worker)
    requires EvidenceInv(s) && EvidenceWorkerInv(s, w) && IsRecovery(w.pc)
    ensures Evident(s, AdvanceRecovery(c, s, w))
  {
    if WritesFinal(w.pc) {
      hide WithMessage, WithDraft;
    } else {
      hide WithStatus;
    }
  }

  lemma HookIsEvident(c: Config, s: Shared, w: Worker)
    requires EvidenceInv(s) && EvidenceWorkerInv(s, w) && IsHook(w.pc)
    ensures Evident(s, AdvanceHook(c, s, w))
  {
  }

  lemma SendIsEvident(c: Config, id: nat, s: Shared, w: Worker)
    requires EvidenceInv(s) && EvidenceWorkerInv(s, w) && !IsRead(w.pc) && !IsRecovery(w.pc) && !IsHook(w.pc)
    ensures Evident(s, AdvanceSend(c, id, s, w))
  {
    if w.pc.CatchJob? {
      hide WithMessage, WithDraft;
    } else {
      hide CatchWrite, Exhausted;
    }
  }

  lemma AdvanceIsEvident(c: Config, id: nat, s: Shared, w: Worker)
    requires EvidenceInv(s) && EvidenceWorkerInv(s, w)
    ensures Evident(s, Advance(c, id, s, w))
  {
    hide Evident, EvidenceInv, EvidenceWorkerInv, AdvanceRead, AdvanceRecovery, AdvanceHook, AdvanceSend;
    if IsRead(w.pc) {
      ReadIsEvident(c, s, w);
    } else if IsRecovery(w.pc) {
      RecoveryIsEvident(c, s, w);
    } else if IsHook(w.pc) {
      HookIsEvident(c, s, w);
    } else {
      SendIsEvident(c, id, s, w);
    }
  }

  lemma ThrowIsEvident(c: Config, id: nat, s: Shared, w: Worker, policy: bool)
    requires EvidenceInv(s) && EvidenceWorkerInv(s, w)
    ensures Evident(s, Throw(c, id, s, w, policy))
  {
    hide Branch, CatchWrite, Exhausted;
  }

  lemma PutIsEvident(s: State, id: nat, r: (Shared, Worker))
    requires AllEvident(s) && Evident(s.shared, r)
    ensures AllEvident(Put(s, id, r))
  {
    hide EvidenceInv, Evidence;
  }

  lemma ApplyIsEvident(c: Config, s: State, a: Action)
    requires AllEvident(s)
    ensures AllEvident(Apply(c, s, a))
  {
    hide Advance, Throw;
    if !a.Tick? && a.id in s.workers {
      var id, w := a.id, s.workers[a.id];
      match a
      case Step(_) =>
        AdvanceIsEvident(c, id, s.shared, w);
        PutIsEvident(s, id, Advance(c, id, s.shared, w));
      case Throws(_, policy) =>
        ThrowIsEvident(c, id, s.shared, w, policy);
        PutIsEvident(s, id, Throw(c, id, s.shared, w, policy));
      case _ =>
    }
  }

  lemma {:induction false} RunIsEvident(c: Config, s: State, actions: seq<Action>)
    requires AllEvident(s)
    ensures AllEvident(Run(c, s, actions))
    decreases |actions|
  {
    hide Apply, AllEvident;
    if actions != [] {
      ApplyIsEvident(c, s, actions[0]);
      RunIsEvident(c, Apply(c, s, actions[0]), actions[1..]);
    }
  }

  /** Job and draft are called sent, and a debit is attempted, only after the provider accepted or reported: this
      needs no assumption about faults. */
  lemma SentMeansEvidence(c: Config, s: State, actions: seq<Action>)
    requires Initial(s)
    ensures var t := Run(c, s, actions);
            (t.shared.job.status == Sent || t.shared.draft == Done ==> Evidence(t.shared))
            && forall id :: id in t.workers && t.workers[id].pc == Settle ==> Evidence(t.shared)
  {
    hide Run, Evidence;
    InitialIsEvident(s);
    RunIsEvident(c, s, actions);
  }

  lemma InitialIsEvident(s: State)
    requires Initial(s)
    ensures AllEvident(s)
  {
  }
}
