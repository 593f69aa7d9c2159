/** Credits over whole runs: any number of outbound jobs on one account, each worked on by any number of redelivered
    handlers, whose statements interleave one by one and which may throw or die anywhere. */
module Credits {
  import opened Billing
  import opened Jobs
  import opened Text

  /** `Enqueuing` is between the reservation and the job's entry into the queue, `Gone` a job that never got there. */
  datatype Stage = Enqueuing | Gone | Placed

  /** `recorded` and `broken` are whether the message tells that the job was sent or that it failed, `debited` whether
      the ledger has an entry for the job. The last two fields are history: whether the job's reservation is still
      neither released nor captured, and which handler is about to send it, to release or to capture it. */
  datatype SendJob = SendJob(
    cost: nat, status: JobStatus, stage: Stage, recorded: bool, broken: bool, debited: bool, held: bool,
    owner: Option<nat>)

  /** What a handler does next. `Looking` has found the job in flight and reads the message, `Holding` has claimed the
      job, `Marking` writes `failed` after a rejection, `Lettering` queues the dead letter after giving up. */
  datatype Pc =
    | Looking | Recovering | Rejecting | Marking | InDoubt | Lettering
    | Claiming | Holding | Releasing(letter: bool)
    | Checking | Appending | Capturing | Reconciling

  datatype Handler = Handler(job: nat, pc: Pc)

  datatype System = System(account: Account, jobs: seq<SendJob>, handlers: map<nat, Handler>)

  // ----- sums over jobs -----

  function Sum(jobs: seq<SendJob>, weight: SendJob -> nat): nat {
    if jobs == [] then 0 else weight(jobs[0]) + Sum(jobs[1..], weight)
  }

  lemma {:induction false} SumOfAppend(jobs: seq<SendJob>, job: SendJob, weight: SendJob -> nat)
    ensures Sum(jobs + [job], weight) == Sum(jobs, weight) + weight(job)
  {
    if jobs == [] {
      assert jobs + [job] == [job];
      assert [job][1..] == [];
    } else {
      assert (jobs + [job])[1..] == jobs[1..] + [job];
      SumOfAppend(jobs[1..], job, weight);
    }
  }

  lemma {:induction false} SumOfUpdate(jobs: seq<SendJob>, i: nat, job: SendJob, weight: SendJob -> nat)
    requires i < |jobs|
    ensures Sum(jobs[i := job], weight) == Sum(jobs, weight) - weight(jobs[i]) + weight(job)
    ensures Sum(jobs, weight) >= weight(jobs[i])
  {
    if i > 0 {
      assert jobs[i := job][1..] == jobs[1..][i - 1 := job];
      SumOfUpdate(jobs[1..], i - 1, job, weight);
    }
  }

  lemma {:induction false} SumOfParts(jobs: seq<SendJob>, f: SendJob -> nat, g: SendJob -> nat, h: SendJob -> nat)
    requires forall i :: 0 <= i < |jobs| ==> f(jobs[i]) == g(jobs[i]) + h(jobs[i])
    ensures Sum(jobs, f) == Sum(jobs, g) + Sum(jobs, h)
  {
    if jobs != [] {
      SumOfParts(jobs[1..], f, g, h);
    }
  }

  lemma {:induction false} SumOfNothing(jobs: seq<SendJob>, f: SendJob -> nat)
    requires forall i :: 0 <= i < |jobs| ==> f(jobs[i]) == 0
    ensures Sum(jobs, f) == 0
  {
    if jobs != [] {
      SumOfNothing(jobs[1..], f);
    }
  }

  function Outstanding(job: SendJob): nat {
    if job.held then job.cost else 0
  }

  /** Debited, and reserved all the same. */
  function StrandedCost(job: SendJob): nat {
    if job.held && job.debited then job.cost else 0
  }

  /** Reserved for a job that failed, or that never got into the queue. */
  function LeakedCost(job: SendJob): nat {
    if job.held && (job.status == Failed || job.stage == Gone) then job.cost else 0
  }

  /** What ought to be reserved: the job is being enqueued, is queued, waits for a retry, is in flight, or is sent
      and not debited. */
  function Due(job: SendJob): nat {
    if job.stage != Gone
       && (Claimable(job.status) || job.status == Sending || (job.status == Sent && !job.debited)) then job.cost
    else 0
  }

  // ----- steps -----

  datatype Action =
    | Enqueue(cost: nat)
    | InsertJob(i: nat)
    | UndoEnqueue(i: nat)
    | DieEnqueuing(i: nat)
    | Deliver(h: nat, i: nat)
    | Work(h: nat)
    | Accept(h: nat)
    | FailForRetry(h: nat)
    | FailForGood(h: nat)
    | FailUnwritten(h: nat)
    | GiveUp(h: nat)
    | Stray(h: nat, exhausted: bool)
    | Swallows(h: nat)
    | Die(h: nat)
    | Grant(credits: nat)
    | TopUp(credits: nat)
    | Reconcile

  /** What a handler leaves behind: the account, its job, and where it goes on, unless it ends. */
  datatype Effect = Effect(account: Account, job: SendJob, pc: Option<Pc>)

  /** The next statement of handler `h`, which works on job `i`. A job without cost is not settled. */
  function Worked(a: Account, i: nat, job: SendJob, h: nat, pc: Pc): Effect {
    match pc
    case Looking => Effect(a, job, Some(if job.recorded then Recovering else if job.broken then Rejecting else InDoubt))
    case Recovering => Effect(a, job.(status := Sent, broken := false), Some(Checking))
    case Rejecting => Effect(OrElse(Released(a, job.cost), a), job.(held := false, owner := None), Some(Marking))
    case Marking => Effect(a, job.(status := Failed), None)
    case Claiming =>
      if Claimable(job.status) then Effect(a, job.(status := Sending, owner := Some(h)), Some(Holding))
      else Effect(a, job, None)
    case Releasing(letter) =>
      Effect(OrElse(Released(a, job.cost), a), job.(held := false, owner := None),
             if letter then Some(Lettering) else None)
    case Lettering => Effect(a, job, None)
    case Checking =>
      Effect(a, job, if job.cost == 0 then None
                     else if HasEntry(a.ledger, Job(i)) then Some(Reconciling) else Some(Appending))
    case Appending =>
      Effect(Appended(a, Debit(i, job.cost)), job.(debited := true, owner := Some(h)), Some(Capturing))
    case Capturing =>
      Effect(OrElse(Captured(a, job.cost), a), job.(held := false, owner := None), Some(Reconciling))
    case Reconciling => Effect(Reconciled(a), job, None)
    case _ => Effect(a, job, Some(pc))
  }

  /** Where an exception reaches the catch block of a handler without a claim: before the claim, at the status write
      or the dead letter of giving up, and when a recovery or a settlement throws whose dead letter cannot be
      queued. */
  predicate Strays(pc: Pc) {
    !pc.Holding? && !pc.Releasing?
  }

  /** `FailUnwritten` is a catch block whose status write throws while its release works; `Swallows` a capture or a
      release whose exception is swallowed. A catch block entered before the recipients are known releases nothing. */
  function Handled(a: Account, i: nat, job: SendJob, h: nat, pc: Pc, action: Action): Effect {
    if action.Work? then Worked(a, i, job, h, pc)
    else if action.Accept? && pc == Holding then
      Effect(a, job.(status := Sent, recorded := true, broken := false, owner := None), Some(Checking))
    else if action.FailForRetry? && pc == Holding then Effect(a, job.(status := Retry, owner := None), None)
    else if action.FailForGood? && pc == Holding then
      Effect(a, job.(status := Failed, broken := true, owner := Some(h)), Some(Releasing(false)))
    else if action.FailUnwritten? && pc == Holding then Effect(a, job.(broken := true), Some(Releasing(false)))
    else if action.GiveUp? && pc == InDoubt then
      Effect(a, job.(status := Failed, broken := true, owner := Some(h)), Some(Releasing(true)))
    else if action.Stray? && Strays(pc) then
      Effect(a, if action.exhausted then job.(status := Failed, broken := true) else job.(status := Retry),
             if action.exhausted && pc != Claiming && pc != Looking then Some(Releasing(false)) else None)
    else if action.Swallows? && pc == Capturing then Effect(a, Left(job, h), Some(Reconciling))
    else if action.Swallows? && pc.Releasing? then Effect(a, Left(job, h), if pc.letter then Some(Lettering) else None)
    else if action.Die? then Effect(a, Left(job, h), None)
    else Effect(a, job, Some(pc))
  }

  function Left(job: SendJob, h: nat): SendJob {
    if job.owner == Some(h) then job.(owner := None) else job
  }

  predicate Works(s: System, h: nat) {
    h in s.handlers && s.handlers[h].job < |s.jobs|
  }

  function JobOf(s: System, h: nat): SendJob
    requires Works(s, h)
  {
    s.jobs[s.handlers[h].job]
  }

  function Put(s: System, h: nat, e: Effect): System
    requires Works(s, h)
  {
    var i := s.handlers[h].job;
    System(e.account, s.jobs[i := e.job],
           if e.pc.Some? then s.handlers[h := Handler(i, e.pc.value)] else s.handlers - {h})
  }

  function EffectOf(s: System, h: nat, action: Action): Effect
    requires Works(s, h)
  {
    Handled(s.account, s.handlers[h].job, JobOf(s, h), h, s.handlers[h].pc, action)
  }

  /** Where a delivery goes with the status it has read. */
  function Opening(status: JobStatus): Pc {
    if status == Sent then Checking else if status == Sending then Looking else Claiming
  }

  function NewJob(cost: nat): SendJob {
    SendJob(cost, Queued, Enqueuing, false, false, false, true, None)
  }

  function Enqueued(s: System, cost: nat): System {
    var job := NewJob(cost);
    if cost == 0 then s.(jobs := s.jobs + [job])
    else if Reserved(s.account, cost).Some? then
      s.(account := Reserved(s.account, cost).value, jobs := s.jobs + [job])
    else s
  }

  /** The compensation of an enqueue that throws after its reservation. */
  function Undone(s: System, i: nat): System {
    if i < |s.jobs| && s.jobs[i].stage == Enqueuing then
      s.(account := OrElse(Released(s.account, s.jobs[i].cost), s.account),
         jobs := s.jobs[i := s.jobs[i].(stage := Gone, held := false)])
    else s
  }

  function Staged(s: System, i: nat, stage: Stage): System {
    if i < |s.jobs| && s.jobs[i].stage == Enqueuing then s.(jobs := s.jobs[i := s.jobs[i].(stage := stage)]) else s
  }

  function Delivered(s: System, h: nat, i: nat): System {
    if h !in s.handlers && i < |s.jobs| && s.jobs[i].stage == Placed then
      s.(handlers := s.handlers[h := Handler(i, Opening(s.jobs[i].status))])
    else s
  }

  predicate ByHandler(a: Action) {
    a.Work? || a.Accept? || a.FailForRetry? || a.FailForGood? || a.FailUnwritten? || a.GiveUp?
    || a.Stray? || a.Swallows? || a.Die?
  }

  function Apply(s: System, a: Action): System {
    if ByHandler(a) then (if Works(s, a.h) then Put(s, a.h, EffectOf(s, a.h, a)) else s)
    else
      match a
      case Enqueue(cost) => Enqueued(s, cost)
      case InsertJob(i) => Staged(s, i, Placed)
      case UndoEnqueue(i) => Undone(s, i)
      case DieEnqueuing(i) => Staged(s, i, Gone)
      case Deliver(h, i) => Delivered(s, h, i)
      case Grant(credits) => s.(account := Appended(s.account, Entry(NoReference, credits)))
      case TopUp(credits) => s.(account := Reconciled(Appended(s.account, Entry(NoReference, credits))))
      case _ => s.(account := Reconciled(s.account))
  }

  function Run(s: System, actions: seq<Action>): System
    decreases |actions|
  {
    if actions == [] then s else Run(Apply(s, actions[0]), actions[1..])
  }

  predicate Initial(s: System) {
    s.jobs == [] && s.handlers == map[] && s.account.available >= 0 && s.account.reserved == 0 && Drift(s.account) == 0
    && forall k :: 0 <= k < |s.account.ledger| ==> !s.account.ledger[k].reference.Job?
  }

  // ----- interruptions -----

  /** What can come between a handler and its money: giving up on or rejecting a job that has left `sending`, or whose
      claim holder is alive; the catch block of a handler without a claim; a release although the status write before
      it failed; an append that is ignored because the entry is there; an end between debit and capture; a
      reconcile between them; an end before the release; an enqueue that dies after its reservation; a grant whose
      reconcile has not happened. */
  datatype Fault =
    | StaleGiveUp | LiveGiveUp | Unclaimed | LostStatus | SecondSettlement
    | LostCapture | EarlyReconcile | LostRelease | LostEnqueue | LateGrant

  predicate IsAt(s: System, h: nat, i: nat, pc: Pc) {
    h in s.handlers && s.handlers[h] == Handler(i, pc)
  }

  predicate Alive(s: System, i: nat) {
    exists h | h in s.handlers :: IsAt(s, h, i, Holding)
  }

  predicate SomebodyCaptures(s: System) {
    exists h | h in s.handlers :: s.handlers[h].pc == Capturing
  }

  function Early(s: System): set<Fault> {
    if SomebodyCaptures(s) then {EarlyReconcile} else {}
  }

  function HandlerFaults(s: System, h: nat, a: Action): set<Fault>
    requires Works(s, h)
  {
    var job, pc := JobOf(s, h), s.handlers[h].pc;
    if (a.Work? && pc == Looking && !job.recorded && job.broken) || (a.GiveUp? && pc == InDoubt) then
      if job.status != Sending then {StaleGiveUp} else if Alive(s, s.handlers[h].job) then {LiveGiveUp} else {}
    else if a.Work? then
      if pc == Appending && job.debited then {SecondSettlement} else if pc == Reconciling then Early(s) else {}
    else if a.Stray? && Strays(pc) then {Unclaimed}
    else if a.FailUnwritten? && pc == Holding then {LostStatus}
    else if (a.Swallows? || a.Die?) && pc == Capturing then {LostCapture}
    else if (a.Swallows? || a.Die?) && pc.Releasing? then {LostRelease}
    else {}
  }

  function FaultsAt(s: System, a: Action): set<Fault> {
    if ByHandler(a) then (if Works(s, a.h) then HandlerFaults(s, a.h, a) else {})
    else if a.TopUp? || a.Reconcile? then Early(s)
    else if a.Grant? then {LateGrant}
    else if a.DieEnqueuing? && a.i < |s.jobs| && s.jobs[a.i].stage == Enqueuing then {LostEnqueue}
    else {}
  }

  function Faults(s: System, actions: seq<Action>): set<Fault>
    decreases |actions|
  {
    if actions == [] then {} else FaultsAt(s, actions[0]) + Faults(Apply(s, actions[0]), actions[1..])
  }

  /** Interruptions after which one reservation is used twice. */
  function Doubling(): set<Fault> {
    {StaleGiveUp, LiveGiveUp, Unclaimed, LostStatus, SecondSettlement}
  }

  // ----- the ledger knows who is debited -----

  /** In every run, whatever the interruptions. */
  ghost predicate EntryInv(s: System) {
    forall i: nat :: HasEntry(s.account.ledger, Job(i)) <==> i < |s.jobs| && s.jobs[i].debited
  }

  lemma EntriesAfterAppend(ledger: seq<Entry>, e: Entry)
    ensures forall r :: HasEntry(ledger + [e], r) <==> HasEntry(ledger, r) || r == e.reference
  {
    var longer := ledger + [e];
    assert longer[|ledger|] == e;
    forall r ensures HasEntry(longer, r) <==> HasEntry(ledger, r) || r == e.reference {
      if i :| 0 <= i < |ledger| && ledger[i].reference == r {
        assert longer[i].reference == r;
      }
    }
  }

  lemma AppendedEntries(a: Account, e: Entry)
    ensures forall r :: HasEntry(Appended(a, e).ledger, r) <==> HasEntry(a.ledger, r) || r == e.reference
  {
    hide HasEntry;
    EntriesAfterAppend(a.ledger, e);
  }

  lemma EntryOfEffect(s: System, h: nat, a: Action)
    requires EntryInv(s) && Works(s, h)
    ensures EntryInv(Put(s, h, EffectOf(s, h, a)))
  {
    hide HasEntry, Appended, Released, Captured, Reconciled;
    hide Handled, Worked;
    EffectLedger(s.account, s.handlers[h].job, JobOf(s, h), h, s.handlers[h].pc, a);
    AppendedEntries(s.account, Debit(s.handlers[h].job, JobOf(s, h).cost));
  }

  /** Only the append touches the ledger. */
  lemma EffectLedger(a: Account, i: nat, job: SendJob, h: nat, pc: Pc, action: Action)
    ensures var e := Handled(a, i, job, h, pc, action);
            if action.Work? && pc == Appending then
              e.account == Appended(a, Debit(i, job.cost)) && e.job.debited
            else e.account.ledger == a.ledger && e.job.debited == job.debited
  {
    hide HasEntry, Appended;
  }

  lemma EntryStep(s: System, a: Action)
    requires EntryInv(s)
    ensures EntryInv(Apply(s, a))
  {
    hide HasEntry, Appended, EffectOf, Put;
    if ByHandler(a) {
      if Works(s, a.h) {
        EntryOfEffect(s, a.h, a);
      }
    } else if a.Grant? || a.TopUp? {
      AppendedEntries(s.account, Entry(NoReference, a.credits));
    }
  }

  // ----- one use for each reservation -----

  predicate Owns(pc: Pc) {
    pc.Holding? || pc.Releasing? || pc.Capturing?
  }

  predicate JobInv(job: SendJob) {
    && (job.stage != Placed ==>
          job.status == Queued && !job.debited && !job.recorded && !job.broken && job.owner == None)
    && (job.stage == Enqueuing ==> job.held)
    && (job.stage == Placed && (Claimable(job.status) || job.status == Sending) ==> job.held && !job.debited)
    && (job.status == Failed ==> !job.debited)
    && (job.status == Sent ==> job.held || job.debited)
    && (job.recorded ==> job.status == Sent)
    && (job.broken ==> job.status == Failed)
    && (job.cost == 0 ==> !job.debited)
    && (job.owner.Some? ==>
          job.status == Sending || (job.held && (job.status == Failed || (job.status == Sent && job.debited))))
  }

  predicate HandlerInv(h: nat, job: SendJob, pc: Pc) {
    && job.stage == Placed && !pc.Rejecting? && !pc.Marking?
    && (Owns(pc) ==> job.owner == Some(h))
    && (pc.Holding? ==> job.status == Sending)
    && (pc.Releasing? ==> job.status == Failed && job.held)
    && (pc.Recovering? || pc.Checking? || pc.Appending? || pc.Capturing? || pc.Reconciling? ==> job.status == Sent)
    && (pc.Appending? || pc.Capturing? ==> job.cost > 0)
    && (pc.Capturing? ==> job.held && job.debited)
  }

  /** The owner of a job is a handler of it that stands before the claimed send, a release or a capture. */
  predicate OwnerInv(s: System, i: nat) {
    i < |s.jobs| && s.jobs[i].owner.Some? ==>
      s.jobs[i].owner.value in s.handlers && s.handlers[s.jobs[i].owner.value].job == i
      && Owns(s.handlers[s.jobs[i].owner.value].pc)
  }

  ghost predicate PlacesInv(s: System) {
    && (forall i :: 0 <= i < |s.jobs| ==> JobInv(s.jobs[i]))
    && (forall i :: 0 <= i < |s.jobs| ==> OwnerInv(s, i))
    && (forall h :: h in s.handlers ==> Works(s, h) && HandlerInv(h, JobOf(s, h), s.handlers[h].pc))
  }

  /** Reserved credits are those outstanding; the ledger covers them up to what is stranded. */
  predicate MoneyInv(s: System) {
    && s.account.reserved == Sum(s.jobs, Outstanding)
    && LedgerSum(s.account.ledger) >= s.account.reserved - Sum(s.jobs, StrandedCost)
    && Drift(s.account) <= Sum(s.jobs, StrandedCost)
  }

  ghost predicate Inv(s: System) {
    PlacesInv(s) && MoneyInv(s) && EntryInv(s)
  }

  /** What one handler may do to its job without disturbing the others. */
  predicate Respects(h: nat, was: SendJob, job: SendJob) {
    && job.cost == was.cost && job.stage == was.stage
    && (was.status == Sent ==> job.status == Sent)
    && (was.owner.Some? && was.owner != Some(h) ==>
          job.status == was.status && job.owner == was.owner && job.held == was.held && job.debited == was.debited)
  }

  predicate Fits(h: nat, was: SendJob, e: Effect) {
    && JobInv(e.job) && Respects(h, was, e.job)
    && (e.pc.Some? ==> HandlerInv(h, e.job, e.pc.value))
    && (e.job.owner == Some(h) ==> e.pc.Some? && Owns(e.pc.value))
    && (e.job.owner.Some? && e.job.owner != Some(h) ==> e.job.owner == was.owner)
  }

  predicate Pays(a: Account, was: SendJob, e: Effect) {
    && e.account.reserved == a.reserved - Outstanding(was) + Outstanding(e.job)
    && LedgerSum(e.account.ledger) - e.account.reserved + StrandedCost(e.job)
       >= LedgerSum(a.ledger) - a.reserved + StrandedCost(was)
    && (Drift(e.account) <= 0 || Drift(e.account) - StrandedCost(e.job) <= Drift(a) - StrandedCost(was))
  }

  /** No doubling interruption, seen from the handler. */
  predicate Single(job: SendJob, pc: Pc, action: Action) {
    && (action.Work? && pc == Appending ==> !job.debited)
    && (action.Work? && pc == Looking ==> !job.broken)
    && (action.GiveUp? && pc == InDoubt ==> job.status == Sending && job.owner == None)
    && !(action.Stray? && Strays(pc))
    && !(action.FailUnwritten? && pc == Holding)
  }

  predicate Sound(a: Account, h: nat, job: SendJob, pc: Pc) {
    JobInv(job) && HandlerInv(h, job, pc) && (job.owner == Some(h) ==> Owns(pc)) && a.reserved >= Outstanding(job)
  }

  lemma WorkFits(a: Account, i: nat, job: SendJob, h: nat, pc: Pc)
    requires Sound(a, h, job, pc) && Single(job, pc, Work(h)) && (HasEntry(a.ledger, Job(i)) <==> job.debited)
    ensures Fits(h, job, Worked(a, i, job, h, pc))
  {
    hide HasEntry, Appended, Released, Captured, Reconciled;
  }

  lemma ActionFits(a: Account, i: nat, job: SendJob, h: nat, pc: Pc, action: Action)
    requires Sound(a, h, job, pc) && Single(job, pc, action) && (HasEntry(a.ledger, Job(i)) <==> job.debited)
    ensures Fits(h, job, Handled(a, i, job, h, pc, action))
  {
    hide HasEntry, Worked;
    if action.Work? {
      WorkFits(a, i, job, h, pc);
    }
  }

  lemma WorkPays(a: Account, i: nat, job: SendJob, h: nat, pc: Pc)
    requires Sound(a, h, job, pc) && Single(job, pc, Work(h)) && (HasEntry(a.ledger, Job(i)) <==> job.debited)
    ensures Pays(a, job, Worked(a, i, job, h, pc))
  {
    hide HasEntry, LedgerSum;
    AppendedLedger(a, Debit(i, job.cost), NoReference);
  }

  lemma ActionPays(a: Account, i: nat, job: SendJob, h: nat, pc: Pc, action: Action)
    requires Sound(a, h, job, pc) && Single(job, pc, action) && (HasEntry(a.ledger, Job(i)) <==> job.debited)
    ensures Pays(a, job, Handled(a, i, job, h, pc, action))
  {
    hide HasEntry, Worked, LedgerSum, HandlerInv, JobInv;
    if action.Work? {
      WorkPays(a, i, job, h, pc);
    }
  }

  /** Captures and releases never miss. */
  predicate GuardHolds(a: Account, job: SendJob, pc: Pc) {
    (pc.Capturing? ==> Captured(a, job.cost).Some?) && (pc.Releasing? ==> Released(a, job.cost).Some?)
  }

  lemma SoundHandler(s: System, h: nat)
    requires Inv(s) && h in s.handlers
    ensures Works(s, h) && Sound(s.account, h, JobOf(s, h), s.handlers[h].pc)
    ensures HasEntry(s.account.ledger, Job(s.handlers[h].job)) <==> JobOf(s, h).debited
    ensures GuardHolds(s.account, JobOf(s, h), s.handlers[h].pc)
  {
    hide HasEntry, JobInv, HandlerInv, Sum;
    var i := s.handlers[h].job;
    SumOfUpdate(s.jobs, i, s.jobs[i], Outstanding);
    assert JobInv(s.jobs[i]) && OwnerInv(s, i);
    SoundGuards(s.account, h, s.jobs[i], s.handlers[h].pc);
  }

  lemma SoundGuards(a: Account, h: nat, job: SendJob, pc: Pc)
    requires HandlerInv(h, job, pc) && a.reserved >= Outstanding(job)
    ensures GuardHolds(a, job, pc)
  {
  }

  lemma NoDoublingIsSingle(s: System, h: nat, a: Action)
    requires Inv(s) && ByHandler(a) && a.h == h && h in s.handlers && FaultsAt(s, a) !! Doubling()
    ensures Works(s, h) && Single(JobOf(s, h), s.handlers[h].pc, a)
  {
    hide HasEntry, MoneyInv, EntryInv;
    var i := s.handlers[h].job;
    assert HandlerFaults(s, h, a) !! Doubling() && JobInv(s.jobs[i]);
    if a.GiveUp? && s.handlers[h].pc == InDoubt && s.jobs[i].owner.Some? {
      OwnerIsAlive(s, i);
    }
  }

  lemma OwnerIsAlive(s: System, i: nat)
    requires PlacesInv(s) && i < |s.jobs| && s.jobs[i].owner.Some? && s.jobs[i].status == Sending
    ensures Alive(s, i)
  {
    assert OwnerInv(s, i);
    assert IsAt(s, s.jobs[i].owner.value, i, Holding);
  }

  lemma OthersStay(h: nat, was: SendJob, job: SendJob, other: nat, pc: Pc)
    requires HandlerInv(other, was, pc) && JobInv(was) && JobInv(job) && Respects(h, was, job) && other != h
    ensures HandlerInv(other, job, pc)
  {
  }

  lemma PutKeepsPlaces(s: System, h: nat, e: Effect)
    requires PlacesInv(s) && h in s.handlers && Works(s, h) && Fits(h, JobOf(s, h), e)
    ensures PlacesInv(Put(s, h, e))
  {
    hide JobInv, HandlerInv, Respects, Owns;
    var t, i := Put(s, h, e), s.handlers[h].job;
    forall other | other in t.handlers
      ensures Works(t, other) && HandlerInv(other, JobOf(t, other), t.handlers[other].pc)
    {
      if other != h && s.handlers[other].job == i {
        OthersStay(h, s.jobs[i], e.job, other, s.handlers[other].pc);
      }
    }
    forall j | 0 <= j < |t.jobs| ensures JobInv(t.jobs[j]) && OwnerInv(t, j) {
      assert OwnerInv(s, j);
    }
  }

  lemma PutKeepsMoney(s: System, h: nat, e: Effect)
    requires MoneyInv(s) && Works(s, h) && Pays(s.account, JobOf(s, h), e)
    ensures MoneyInv(Put(s, h, e))
  {
    hide Sum, LedgerSum;
    SumOfUpdate(s.jobs, s.handlers[h].job, e.job, Outstanding);
    SumOfUpdate(s.jobs, s.handlers[h].job, e.job, StrandedCost);
  }

  lemma HandlerStepKeeps(s: System, a: Action)
    requires Inv(s) && ByHandler(a) && a.h in s.handlers && FaultsAt(s, a) !! Doubling()
    ensures Inv(Apply(s, a))
  {
    hide PlacesInv, MoneyInv, EntryInv, Fits, Pays, Sound, Single, Handled, Put, HasEntry;
    SoundHandler(s, a.h);
    NoDoublingIsSingle(s, a.h, a);
    var i, job, pc := s.handlers[a.h].job, JobOf(s, a.h), s.handlers[a.h].pc;
    ActionFits(s.account, i, job, a.h, pc, a);
    ActionPays(s.account, i, job, a.h, pc, a);
    PutKeepsPlaces(s, a.h, EffectOf(s, a.h, a));
    PutKeepsMoney(s, a.h, EffectOf(s, a.h, a));
    EntryOfEffect(s, a.h, a);
  }

  // ----- steps of nobody's handler -----

  /** A job that is being enqueued has no handler and no owner. */
  lemma StageKeepsPlaces(s: System, i: nat, job: SendJob)
    requires PlacesInv(s) && i < |s.jobs| && s.jobs[i].stage == Enqueuing && JobInv(job) && job.owner == None
    ensures PlacesInv(s.(jobs := s.jobs[i := job]))
  {
    hide JobInv;
    var t := s.(jobs := s.jobs[i := job]);
    forall j | 0 <= j < |t.jobs| ensures JobInv(t.jobs[j]) && OwnerInv(t, j) {
      assert OwnerInv(s, j);
    }
  }

  lemma EnqueueKeeps(s: System, cost: nat)
    requires Inv(s)
    ensures Inv(Enqueued(s, cost))
  {
    hide HasEntry, LedgerSum, Sum;
    var job := NewJob(cost);
    SumOfAppend(s.jobs, job, Outstanding);
    SumOfAppend(s.jobs, job, StrandedCost);
    AppendKeepsPlaces(s, job);
    PlacesIgnoreAccount(s.(jobs := s.jobs + [job]), Enqueued(s, cost).account);
    hide PlacesInv;
  }

  lemma AppendKeepsPlaces(s: System, job: SendJob)
    requires PlacesInv(s) && JobInv(job) && job.owner == None
    ensures PlacesInv(s.(jobs := s.jobs + [job]))
  {
    hide JobInv, HandlerInv, Owns;
    var t := s.(jobs := s.jobs + [job]);
    forall j | 0 <= j < |t.jobs| ensures JobInv(t.jobs[j]) && OwnerInv(t, j) {
      assert j < |s.jobs| ==> OwnerInv(s, j);
    }
  }

  lemma PlacesIgnoreAccount(s: System, a: Account)
    requires PlacesInv(s)
    ensures PlacesInv(s.(account := a))
  {
    hide JobInv, HandlerInv;
    var t := s.(account := a);
    forall j | 0 <= j < |t.jobs| ensures JobInv(t.jobs[j]) && OwnerInv(t, j) {
      assert OwnerInv(s, j);
    }
  }

  lemma UndoKeeps(s: System, i: nat)
    requires Inv(s)
    ensures Inv(Undone(s, i))
    ensures i < |s.jobs| && s.jobs[i].stage == Enqueuing ==> Released(s.account, s.jobs[i].cost).Some?
  {
    hide HasEntry, LedgerSum, Sum;
    if i < |s.jobs| && s.jobs[i].stage == Enqueuing {
      var job := s.jobs[i].(stage := Gone, held := false);
      SumOfUpdate(s.jobs, i, job, Outstanding);
      SumOfUpdate(s.jobs, i, job, StrandedCost);
      StageKeepsPlaces(s, i, job);
      PlacesIgnoreAccount(s.(jobs := s.jobs[i := job]), Undone(s, i).account);
      hide PlacesInv;
    }
  }

  lemma StagedKeeps(s: System, i: nat, stage: Stage)
    requires Inv(s) && stage != Enqueuing
    ensures Inv(Staged(s, i, stage))
  {
    hide HasEntry, LedgerSum, Sum;
    if i < |s.jobs| && s.jobs[i].stage == Enqueuing {
      var job := s.jobs[i].(stage := stage);
      SumOfUpdate(s.jobs, i, job, Outstanding);
      SumOfUpdate(s.jobs, i, job, StrandedCost);
      StageKeepsPlaces(s, i, job);
      hide PlacesInv;
    }
  }

  lemma DeliverKeeps(s: System, h: nat, i: nat)
    requires Inv(s)
    ensures Inv(Delivered(s, h, i))
  {
    hide MoneyInv, HasEntry, Owns;
    var t := Delivered(s, h, i);
    if t != s {
      assert EntryInv(t);
      forall j | 0 <= j < |t.jobs| ensures OwnerInv(t, j) {
        assert OwnerInv(s, j);
      }
      forall other | other in t.handlers
        ensures Works(t, other) && HandlerInv(other, JobOf(t, other), t.handlers[other].pc)
      {
        OpeningFits(h, s.jobs[i]);
      }
      SameMoney(s, t);
    }
  }

  lemma OpeningFits(h: nat, job: SendJob)
    requires job.stage == Placed
    ensures HandlerInv(h, job, Opening(job.status))
  {
  }

  lemma SameMoney(s: System, t: System)
    requires MoneyInv(s) && t.account == s.account && t.jobs == s.jobs
    ensures MoneyInv(t)
  {
  }

  lemma AccountKeeps(s: System, a: Account)
    requires Inv(s) && a.reserved == s.account.reserved && LedgerSum(a.ledger) >= LedgerSum(s.account.ledger)
    requires Drift(a) <= Sum(s.jobs, StrandedCost)
    requires forall i: nat :: HasEntry(a.ledger, Job(i)) <==> HasEntry(s.account.ledger, Job(i))
    ensures Inv(s.(account := a))
  {
    hide PlacesInv, HasEntry, LedgerSum, Sum;
    PlacesIgnoreAccount(s, a);
  }

  lemma GrantKeeps(s: System, credits: nat)
    requires Inv(s)
    ensures Inv(s.(account := Appended(s.account, Entry(NoReference, credits))))
  {
    hide LedgerSum, Sum, HasEntry, PlacesInv;
    var e := Entry(NoReference, credits);
    AppendedLedger(s.account, e, NoReference);
    AppendedEntries(s.account, e);
    AccountKeeps(s, Appended(s.account, e));
  }

  lemma ReconcileKeeps(s: System)
    requires Inv(s)
    ensures Inv(s.(account := Reconciled(s.account)))
  {
    hide LedgerSum, Sum, HasEntry, PlacesInv;
    assert Sum(s.jobs, StrandedCost) >= 0;
    AccountKeeps(s, Reconciled(s.account));
  }

  lemma ApplyKeeps(s: System, a: Action)
    requires Inv(s) && FaultsAt(s, a) !! Doubling()
    ensures Inv(Apply(s, a))
  {
    hide Inv, FaultsAt, EffectOf, Put, Enqueued, Undone, Staged, Delivered, Appended, Reconciled;
    if ByHandler(a) {
      if a.h in s.handlers {
        HandlerStepKeeps(s, a);
      }
    } else {
      match a
      case Enqueue(cost) => EnqueueKeeps(s, cost);
      case InsertJob(i) => StagedKeeps(s, i, Placed);
      case UndoEnqueue(i) => UndoKeeps(s, i);
      case DieEnqueuing(i) => StagedKeeps(s, i, Gone);
      case Deliver(h, i) => DeliverKeeps(s, h, i);
      case Grant(credits) => GrantKeeps(s, credits);
      case TopUp(credits) =>
        GrantKeeps(s, credits);
        ReconcileKeeps(s.(account := Appended(s.account, Entry(NoReference, credits))));
      case _ => ReconcileKeeps(s);
    }
  }

  lemma {:induction false} RunKeeps(s: System, actions: seq<Action>)
    requires Inv(s) && Faults(s, actions) !! Doubling()
    ensures Inv(Run(s, actions))
    decreases |actions|
  {
    hide Inv, Apply, FaultsAt, Doubling;
    if actions != [] {
      ApplyKeeps(s, actions[0]);
      RunKeeps(Apply(s, actions[0]), actions[1..]);
    }
  }

  lemma InitialInv(s: System)
    requires Initial(s)
    ensures Inv(s)
  {
  }

  // ----- what the invariant says about runs -----

  function HeldCost(job: SendJob): nat {
    if job.held && !job.debited then job.cost else 0
  }

  lemma OutstandingParts(jobs: seq<SendJob>)
    requires forall i :: 0 <= i < |jobs| ==> JobInv(jobs[i])
    ensures Sum(jobs, Outstanding) == Sum(jobs, HeldCost) + Sum(jobs, StrandedCost)
    ensures Sum(jobs, HeldCost) == Sum(jobs, Due) + Sum(jobs, LeakedCost)
  {
    SumOfParts(jobs, Outstanding, HeldCost, StrandedCost);
    SumOfParts(jobs, HeldCost, Due, LeakedCost);
  }

  /** Whatever interleaves, throws or dies short of a doubling interruption: reserved credits are the summed cost of
      the jobs that are being enqueued, queued, waiting, in flight or sent without a debit, plus what was debited
      and not captured, plus what failed jobs and interrupted enqueues have not released. `debited` is what the
      ledger says. */
  lemma ReservedIsWhatIsDue(s: System, actions: seq<Action>)
    requires Initial(s) && Faults(s, actions) !! Doubling()
    ensures var t := Run(s, actions);
            t.account.reserved == Sum(t.jobs, Due) + Sum(t.jobs, StrandedCost) + Sum(t.jobs, LeakedCost)
            && forall i :: 0 <= i < |t.jobs| ==> (t.jobs[i].debited <==> HasEntry(t.account.ledger, Job(i)))
  {
    hide Run, Faults, Doubling, Sum, HasEntry, JobInv, HandlerInv;
    InitialInv(s);
    RunKeeps(s, actions);
    OutstandingParts(Run(s, actions).jobs);
  }

  /** Right after a reconcile the available credits are what the ledger leaves beside the reservations in use, less
      what is stranded; without strandings they are not negative. */
  lemma AvailableAfterReconcile(s: System, actions: seq<Action>)
    requires Initial(s) && Faults(s, actions) !! Doubling()
    ensures var t := Apply(Run(s, actions), Reconcile);
            var free := LedgerSum(t.account.ledger) - Sum(t.jobs, Due) - Sum(t.jobs, LeakedCost);
            free >= 0 && t.account.available == free - Sum(t.jobs, StrandedCost)
  {
    hide Run, Faults, Doubling, Sum, HasEntry, LedgerSum, JobInv, HandlerInv;
    InitialInv(s);
    RunKeeps(s, actions);
    OutstandingParts(Run(s, actions).jobs);
  }

  // ----- without interrupted captures -----

  /** What is debited and still reserved is about to be captured. */
  predicate Unstranded(job: SendJob) {
    job.held && job.debited ==> job.owner.Some?
  }

  /** What failed and is still reserved is about to be released. */
  predicate Unleaked(job: SendJob) {
    (job.held && job.status == Failed ==> job.owner.Some?) && (job.stage == Gone ==> !job.held)
  }

  ghost predicate NoneStranded(s: System) {
    forall i :: 0 <= i < |s.jobs| ==> Unstranded(s.jobs[i])
  }

  ghost predicate NoneLeaked(s: System) {
    forall i :: 0 <= i < |s.jobs| ==> Unleaked(s.jobs[i])
  }

  predicate Ends(action: Action) {
    action.Die? || action.Swallows?
  }

  lemma ActionStrandsNothing(a: Account, i: nat, job: SendJob, h: nat, pc: Pc, action: Action)
    requires Sound(a, h, job, pc) && Single(job, pc, action) && Unstranded(job)
    requires !(Ends(action) && pc == Capturing)
    ensures Unstranded(Handled(a, i, job, h, pc, action).job)
  {
    hide HasEntry, Appended, Released, Captured, Reconciled;
  }

  lemma ActionLeaksNothing(a: Account, i: nat, job: SendJob, h: nat, pc: Pc, action: Action)
    requires Sound(a, h, job, pc) && Single(job, pc, action) && Unleaked(job)
    requires !(Ends(action) && pc.Releasing?)
    ensures Unleaked(Handled(a, i, job, h, pc, action).job)
  {
    hide HasEntry, Appended, Released, Captured, Reconciled;
  }

  lemma ActionAddsAvailable(a: Account, i: nat, job: SendJob, h: nat, pc: Pc, action: Action)
    requires !(action.Work? && pc == Reconciling)
    ensures Handled(a, i, job, h, pc, action).account.available >= a.available
  {
    hide HasEntry;
  }

  lemma PutOnly(s: System, h: nat, e: Effect)
    requires Works(s, h)
    ensures NoneStranded(s) && Unstranded(e.job) ==> NoneStranded(Put(s, h, e))
    ensures NoneLeaked(s) && Unleaked(e.job) ==> NoneLeaked(Put(s, h, e))
  {
    hide Unstranded, Unleaked;
  }

  lemma StepStrandsNothing(s: System, a: Action)
    requires Inv(s) && NoneStranded(s) && FaultsAt(s, a) !! Doubling() && LostCapture !in FaultsAt(s, a)
    ensures NoneStranded(Apply(s, a))
  {
    hide HasEntry, PlacesInv, MoneyInv, EntryInv, Handled, Sound, Single, Put, Appended, Reconciled;
    if ByHandler(a) {
      if a.h in s.handlers {
        SoundHandler(s, a.h);
        NoDoublingIsSingle(s, a.h, a);
        var e := EffectOf(s, a.h, a);
        ActionStrandsNothing(s.account, s.handlers[a.h].job, JobOf(s, a.h), a.h, s.handlers[a.h].pc, a);
        PutOnly(s, a.h, e);
      }
    } else {
      OutsideStrandsNothing(s, a);
    }
  }

  lemma StepLeaksNothing(s: System, a: Action)
    requires Inv(s) && NoneLeaked(s) && FaultsAt(s, a) !! Doubling() && FaultsAt(s, a) !! {LostRelease, LostEnqueue}
    ensures NoneLeaked(Apply(s, a))
  {
    hide HasEntry, PlacesInv, MoneyInv, EntryInv, Handled, Sound, Single, Put, Appended, Reconciled;
    if ByHandler(a) {
      if a.h in s.handlers {
        SoundHandler(s, a.h);
        NoDoublingIsSingle(s, a.h, a);
        var e := EffectOf(s, a.h, a);
        ActionLeaksNothing(s.account, s.handlers[a.h].job, JobOf(s, a.h), a.h, s.handlers[a.h].pc, a);
        PutOnly(s, a.h, e);
      }
    } else {
      OutsideStrandsNothing(s, a);
    }
  }

  lemma OutsideStrandsNothing(s: System, a: Action)
    requires PlacesInv(s) && !ByHandler(a)
    ensures NoneStranded(s) ==> NoneStranded(Apply(s, a))
    ensures NoneLeaked(s) && LostEnqueue !in FaultsAt(s, a) ==> NoneLeaked(Apply(s, a))
  {
    hide HasEntry, Appended, Reconciled, HandlerInv;
    if (a.InsertJob? || a.UndoEnqueue? || a.DieEnqueuing?) && a.i < |s.jobs| {
      assert JobInv(s.jobs[a.i]);
    }
  }

  lemma StrandedIsBeingCaptured(s: System, i: nat)
    requires PlacesInv(s) && NoneStranded(s) && i < |s.jobs| && s.jobs[i].held && s.jobs[i].debited
    ensures SomebodyCaptures(s)
  {
    assert OwnerInv(s, i) && JobInv(s.jobs[i]) && Unstranded(s.jobs[i]);
    assert s.handlers[s.jobs[i].owner.value].pc == Capturing;
  }

  lemma NothingStrandedNow(s: System)
    requires PlacesInv(s) && NoneStranded(s) && !SomebodyCaptures(s)
    ensures Sum(s.jobs, StrandedCost) == 0
  {
    hide PlacesInv, SomebodyCaptures, NoneStranded;
    forall i | 0 <= i < |s.jobs| ensures StrandedCost(s.jobs[i]) == 0 {
      if s.jobs[i].held && s.jobs[i].debited {
        StrandedIsBeingCaptured(s, i);
      }
    }
    SumOfNothing(s.jobs, StrandedCost);
  }

  lemma ReconciledIsNotNegative(s: System)
    requires Inv(s) && NoneStranded(s) && !SomebodyCaptures(s)
    ensures Reconciled(s.account).available >= 0
  {
    hide PlacesInv, EntryInv, NoneStranded, Sum, LedgerSum;
    NothingStrandedNow(s);
  }

  lemma StepIsNotNegative(s: System, a: Action)
    requires Inv(s) && NoneStranded(s) && s.account.available >= 0
    requires FaultsAt(s, a) <= {LostRelease, LostEnqueue, LateGrant}
    ensures Apply(s, a).account.available >= 0
  {
    hide Inv, NoneStranded, HasEntry, LedgerSum, SomebodyCaptures;
    if ByHandler(a) {
      hide Appended, Released, Captured;
      if Works(s, a.h) {
        var i, job, pc := s.handlers[a.h].job, JobOf(s, a.h), s.handlers[a.h].pc;
        if a.Work? && pc == Reconciling {
          assert EarlyReconcile !in HandlerFaults(s, a.h, a);
          ReconciledIsNotNegative(s);
        } else {
          hide Handled;
          ActionAddsAvailable(s.account, i, job, a.h, pc, a);
        }
      }
    } else if a.TopUp? {
      assert EarlyReconcile !in Early(s);
      TopUpIsNotNegative(s, a.credits);
    } else if a.Reconcile? {
      assert EarlyReconcile !in Early(s);
      ReconciledIsNotNegative(s);
    }
  }

  lemma TopUpIsNotNegative(s: System, credits: nat)
    requires Inv(s) && NoneStranded(s) && !SomebodyCaptures(s)
    ensures Reconciled(Appended(s.account, Entry(NoReference, credits))).available >= 0
  {
    hide Inv, Appended, Reconciled;
    GrantKeeps(s, credits);
    ReconciledIsNotNegative(s.(account := Appended(s.account, Entry(NoReference, credits))));
  }

  lemma {:induction false} RunIsNotNegative(s: System, actions: seq<Action>)
    requires Inv(s) && NoneStranded(s) && s.account.available >= 0
    requires Faults(s, actions) <= {LostRelease, LostEnqueue, LateGrant}
    ensures Run(s, actions).account.available >= 0
    decreases |actions|
  {
    hide Inv, Apply, FaultsAt, NoneStranded;
    if actions != [] {
      ApplyKeeps(s, actions[0]);
      StepStrandsNothing(s, actions[0]);
      StepIsNotNegative(s, actions[0]);
      RunIsNotNegative(Apply(s, actions[0]), actions[1..]);
    }
  }

  lemma {:induction false} RunLosesNothing(s: System, actions: seq<Action>)
    requires Inv(s) && NoneStranded(s) && NoneLeaked(s) && Faults(s, actions) <= {EarlyReconcile, LateGrant}
    ensures Inv(Run(s, actions)) && NoneStranded(Run(s, actions)) && NoneLeaked(Run(s, actions))
    decreases |actions|
  {
    hide Inv, Apply, FaultsAt, NoneStranded, NoneLeaked;
    if actions != [] {
      ApplyKeeps(s, actions[0]);
      StepStrandsNothing(s, actions[0]);
      StepLeaksNothing(s, actions[0]);
      RunLosesNothing(Apply(s, actions[0]), actions[1..]);
    }
  }

  /** No handler stands between a debit and its capture or between a failure and its release. */
  ghost predicate Rests(s: System) {
    forall h :: h in s.handlers ==> !s.handlers[h].pc.Releasing? && !s.handlers[h].pc.Capturing?
  }

  lemma NothingMissingNow(s: System)
    requires Inv(s) && NoneStranded(s) && NoneLeaked(s) && Rests(s)
    ensures s.account.reserved == Sum(s.jobs, Due)
  {
    hide HasEntry, Sum;
    forall i | 0 <= i < |s.jobs| ensures StrandedCost(s.jobs[i]) == 0 && LeakedCost(s.jobs[i]) == 0 {
      assert OwnerInv(s, i) && Unstranded(s.jobs[i]) && Unleaked(s.jobs[i]);
    }
    SumOfNothing(s.jobs, StrandedCost);
    SumOfNothing(s.jobs, LeakedCost);
    OutstandingParts(s.jobs);
  }

  // ----- available, reserved and the ledger together -----

  /** Available and reserved credits are ahead of the ledger by what is about to be captured. */
  predicate Even(s: System) {
    Drift(s.account) == Sum(s.jobs, StrandedCost)
  }

  lemma WorkBalances(a: Account, i: nat, job: SendJob, h: nat, pc: Pc)
    requires Sound(a, h, job, pc) && Single(job, pc, Work(h)) && (HasEntry(a.ledger, Job(i)) <==> job.debited)
    requires pc != Reconciling
    ensures var e := Worked(a, i, job, h, pc);
            Drift(e.account) - StrandedCost(e.job) == Drift(a) - StrandedCost(job)
  {
    hide HasEntry, LedgerSum;
    AppendedLedger(a, Debit(i, job.cost), NoReference);
  }

  lemma ActionBalances(a: Account, i: nat, job: SendJob, h: nat, pc: Pc, action: Action)
    requires Sound(a, h, job, pc) && Single(job, pc, action) && (HasEntry(a.ledger, Job(i)) <==> job.debited)
    requires !(action.Work? && pc == Reconciling)
    ensures var e := Handled(a, i, job, h, pc, action);
            Drift(e.account) - StrandedCost(e.job) == Drift(a) - StrandedCost(job)
  {
    hide HasEntry, Worked, LedgerSum, HandlerInv, JobInv;
    if action.Work? {
      WorkBalances(a, i, job, h, pc);
    }
  }

  lemma HandlerStepIsEven(s: System, a: Action)
    requires Inv(s) && NoneStranded(s) && Even(s) && ByHandler(a) && a.h in s.handlers
    requires FaultsAt(s, a) <= {LostRelease, LostEnqueue}
    ensures Even(Apply(s, a))
  {
    hide PlacesInv, MoneyInv, EntryInv, NoneStranded, Sound, Single, Sum, LedgerSum, HasEntry, SomebodyCaptures, Drift;
    SoundHandler(s, a.h);
    NoDoublingIsSingle(s, a.h, a);
    var i, job, pc, e := s.handlers[a.h].job, JobOf(s, a.h), s.handlers[a.h].pc, EffectOf(s, a.h, a);
    SumOfUpdate(s.jobs, i, e.job, StrandedCost);
    if a.Work? && pc == Reconciling {
      assert EarlyReconcile !in HandlerFaults(s, a.h, a);
      NothingStrandedNow(s);
      assert e.job == job && Drift(e.account) == 0;
    } else {
      hide Handled;
      ActionBalances(s.account, i, job, a.h, pc, a);
    }
  }

  lemma StepIsEven(s: System, a: Action)
    requires Inv(s) && NoneStranded(s) && Even(s) && FaultsAt(s, a) <= {LostRelease, LostEnqueue}
    ensures Even(Apply(s, a))
  {
    hide PlacesInv, MoneyInv, EntryInv, NoneStranded, Sum, LedgerSum, HasEntry, SomebodyCaptures, EffectOf, Put;
    if ByHandler(a) {
      hide FaultsAt;
      if a.h in s.handlers {
        HandlerStepIsEven(s, a);
      }
    } else if a.TopUp? || a.Reconcile? {
      assert EarlyReconcile !in Early(s);
      NothingStrandedNow(s);
    } else {
      assert a.Grant? ==> LateGrant in FaultsAt(s, a);
      OutsideIsEven(s, a);
    }
  }

  lemma OutsideIsEven(s: System, a: Action)
    requires Inv(s) && Even(s) && !ByHandler(a) && !a.TopUp? && !a.Reconcile? && !a.Grant?
    ensures Even(Apply(s, a))
  {
    hide MoneyInv, EntryInv, Sum, LedgerSum, HasEntry, HandlerInv;
    if a.Enqueue? {
      SumOfAppend(s.jobs, NewJob(a.cost), StrandedCost);
    } else if !a.Deliver? && a.i < |s.jobs| && s.jobs[a.i].stage == Enqueuing {
      assert JobInv(s.jobs[a.i]);
      SumOfUpdate(s.jobs, a.i, Apply(s, a).jobs[a.i], StrandedCost);
    }
  }

  lemma {:induction false} RunIsEven(s: System, actions: seq<Action>)
    requires Inv(s) && NoneStranded(s) && Even(s) && Faults(s, actions) <= {LostRelease, LostEnqueue}
    ensures Inv(Run(s, actions)) && NoneStranded(Run(s, actions)) && Even(Run(s, actions))
    decreases |actions|
  {
    hide Inv, Apply, FaultsAt, NoneStranded, Even;
    if actions != [] {
      ApplyKeeps(s, actions[0]);
      StepStrandsNothing(s, actions[0]);
      StepIsEven(s, actions[0]);
      RunIsEven(Apply(s, actions[0]), actions[1..]);
    }
  }

  lemma EvenAtRest(s: System)
    requires Inv(s) && NoneStranded(s) && Even(s) && Rests(s)
    ensures Drift(s.account) == 0
  {
    hide HasEntry, Sum, LedgerSum, MoneyInv, EntryInv;
    assert !SomebodyCaptures(s);
    NothingStrandedNow(s);
  }
}
