/** The protocol that sends one outbound job: any number of redelivered queue messages and provider events
    run side by side, every step between two awaits can interleave with any other, every operation may throw
    and every handler may die at any point. */
module OutboundProtocol {
  import opened Jobs
  import opened Text

  // ----- shared rows -----

  /** A message or draft status, as far as the protocol looks at it: not final, replied or sent, failed. */
  datatype Mark = Open | Done | Broken

  datatype JobRow = JobRow(status: JobStatus, retryCount: nat, updatedAt: nat)

  datatype MessageRow = MessageRow(mark: Mark, provider: bool)

  /** `delivered` and `bounced` tell which terminal events are recorded. The last four fields are history:
      who holds an unfinished claim, how often the job was claimed, how often the provider returned
      successfully, and whether any provider event arrived. */
  datatype Shared = Shared(
    job: JobRow, message: MessageRow, draft: Mark, delivered: bool, bounced: bool, clock: nat,
    holder: Option<nat>, claims: nat, accepted: nat, hooked: bool)

  datatype Config = Config(maxRetries: nat, grace: nat, hasDraft: bool)

  // ----- handlers in flight -----

  datatype EventKind = Delivery | Rejection | Other

  /** Where a handler is. Each name is the operation that comes next. */
  datatype Pc =
    | ReadJob | ReadDraft | ReadMessage | ReadEvents
    | SentMessage | SentDraft
    | RecoverMessage | RecoverDraft | RecoverJob
    | RejectMessage | RejectDraft | RejectRelease | RejectJob
    | InDoubtJob | InDoubtMessage | InDoubtDraft | InDoubtLetter
    | Claim | ConfirmClaim | Reread | Send
    | FinishJob | FinishMessage | FinishDraft | Settle
    | CatchJob(policy: bool) | CatchMessage | CatchDraft
    | HookRecord(kind: EventKind, hasId: bool) | HookBackfill(kind: EventKind)
    | HookLook(kind: EventKind) | HookCredit(treatAsDelivered: bool)
    | HookMessage(treatAsDelivered: bool) | HookJob(treatAsDelivered: bool) | HookDraft(treatAsDelivered: bool)
    | Stopped

  /** What the handler has read so far; `job` is None until the first read. */
  datatype Worker = Worker(pc: Pc, job: Option<JobRow>, message: MessageRow, draft: Mark)

  datatype State = State(shared: Shared, workers: map<nat, Worker>)

  function At(w: Worker, pc: Pc): Worker {
    w.(pc := pc)
  }

  function WithStatus(s: Shared, status: JobStatus): Shared {
    s.(job := s.job.(status := status, updatedAt := s.clock))
  }

  function WithMessage(s: Shared, mark: Mark): Shared {
    s.(message := s.message.(mark := mark))
  }

  function WithDraft(c: Config, s: Shared, mark: Mark): Shared {
    if c.hasDraft then s.(draft := mark) else s
  }

  // ----- the handler -----

  datatype Outcome = NoOutcome | OutcomeSent | OutcomeFailed

  function TerminalDeliveryOutcome(s: Shared): Outcome {
    if s.delivered then OutcomeSent else if s.bounced then OutcomeFailed else NoOutcome
  }

  /** The branch taken once everything is read. */
  function Branch(c: Config, w: Worker, outcome: Outcome, clock: nat): Pc
    requires w.job.Some?
  {
    var job := w.job.value;
    if job.status == Sent then SentMessage
    else if job.status == Sending then
      if w.message.provider || w.message.mark == Done || outcome == OutcomeSent then RecoverMessage
      else if w.message.mark == Broken || outcome == OutcomeFailed then RejectMessage
      else if clock - job.updatedAt < c.grace then Stopped
      else InDoubtJob
    else Claim
  }

  function NextRetryCount(w: Worker): Option<nat> {
    if w.job.Some? then Some(w.job.value.retryCount + 1) else None
  }

  predicate Exhausted(c: Config, w: Worker, policy: bool) {
    policy || (NextRetryCount(w).Some? && NextRetryCount(w).value > c.maxRetries)
  }

  /** The status write of the handler's catch block. */
  function CatchWrite(c: Config, s: Shared, w: Worker, policy: bool): Shared {
    var next := NextRetryCount(w);
    var t := WithStatus(s, if Exhausted(c, w, policy) then Failed else Retry);
    if next.Some? then t.(job := t.job.(retryCount := next.value)) else t
  }

  function Released(s: Shared, id: nat): Shared {
    if s.holder == Some(id) then s.(holder := None) else s
  }

  /** The reads that open a delivery. */
  function AdvanceRead(c: Config, s: Shared, w: Worker): (Shared, Worker) {
    match w.pc
    case ReadJob => (s, w.(job := Some(s.job), pc := ReadDraft))
    case ReadDraft => (s, w.(draft := s.draft, pc := ReadMessage))
    case ReadMessage => (s, w.(message := s.message, pc := ReadEvents))
    case ReadEvents =>
      (s, if w.job.Some? then At(w, Branch(c, w, TerminalDeliveryOutcome(s), s.clock)) else At(w, Stopped))
    case _ => (s, w)
  }

  /** The branches for a job that is already sent or in flight. */
  function AdvanceRecovery(c: Config, s: Shared, w: Worker): (Shared, Worker) {
    match w.pc
    case SentMessage => (if w.message.mark != Done then WithMessage(s, Done) else s, At(w, SentDraft))
    case SentDraft => (if w.draft != Done then WithDraft(c, s, Done) else s, At(w, Settle))
    case RecoverMessage => (WithMessage(s, Done), At(w, RecoverDraft))
    case RecoverDraft => (WithDraft(c, s, Done), At(w, RecoverJob))
    case RecoverJob => (WithStatus(s, Sent), At(w, Settle))
    case RejectMessage => (WithMessage(s, Broken), At(w, RejectDraft))
    case RejectDraft => (WithDraft(c, s, Broken), At(w, RejectRelease))
    case RejectRelease => (s, At(w, RejectJob))
    case RejectJob => (WithStatus(s, Failed), At(w, Stopped))
    case InDoubtJob => (WithStatus(s, Failed), At(w, InDoubtMessage))
    case InDoubtMessage => (WithMessage(s, Broken), At(w, InDoubtDraft))
    case InDoubtDraft => (WithDraft(c, s, Broken), At(w, InDoubtLetter))
    case InDoubtLetter => (s, At(w, Stopped))
    case _ => (s, w)
  }

  /** From the claim to the settlement, and the catch block. */
  function AdvanceSend(c: Config, id: nat, s: Shared, w: Worker): (Shared, Worker) {
    match w.pc
    case Claim =>
      if Claimable(s.job.status) then
        (WithStatus(s, Sending).(holder := Some(id), claims := s.claims + 1), At(w, ConfirmClaim))
      else (s, At(w, Stopped))
    case ConfirmClaim => (s, At(w, Reread))
    case Reread => (s, w.(job := Some(s.job), pc := Send))
    case Send => (Released(s, id).(accepted := s.accepted + 1), At(w, FinishJob))
    case FinishJob => (WithStatus(s, Sent), At(w, FinishMessage))
    case FinishMessage => (s.(message := MessageRow(Done, true)), At(w, FinishDraft))
    case FinishDraft => (WithDraft(c, s, Done), At(w, Settle))
    case Settle => (s, At(w, Stopped))
    case CatchJob(policy) =>
      (Released(CatchWrite(c, s, w, policy), id),
       At(w, if Exhausted(c, w, policy) && w.job.Some? then CatchMessage else Stopped))
    case CatchMessage => (WithMessage(s, Broken), At(w, CatchDraft))
    case CatchDraft => (WithDraft(c, s, Broken), At(w, Stopped))
    case _ => (s, w)
  }

  /** The provider webhook. */
  function AdvanceHook(c: Config, s: Shared, w: Worker): (Shared, Worker) {
    match w.pc
    case HookRecord(kind, hasId) =>
      (s.(delivered := s.delivered || kind == Delivery, bounced := s.bounced || kind == Rejection, hooked := true),
       At(w, if hasId then HookBackfill(kind) else if kind == Other then Stopped else HookLook(kind)))
    case HookBackfill(kind) =>
      (s.(message := s.message.(provider := true)), At(w, if kind == Other then Stopped else HookLook(kind)))
    case HookLook(kind) => (s, At(w, HookCredit(kind == Delivery || s.delivered)))
    case HookCredit(d) => (s, At(w, HookMessage(d)))
    case HookMessage(d) => (WithMessage(s, if d then Done else Broken), At(w, HookJob(d)))
    case HookJob(d) => (WithStatus(s, if d then Sent else Failed), At(w, HookDraft(d)))
    case HookDraft(d) => (WithDraft(c, s, if d then Done else Broken), At(w, Stopped))
    case _ => (s, w)
  }

  predicate IsRead(pc: Pc) {
    pc.ReadJob? || pc.ReadDraft? || pc.ReadMessage? || pc.ReadEvents?
  }

  predicate IsRecovery(pc: Pc) {
    pc.SentMessage? || pc.SentDraft? || pc.RecoverMessage? || pc.RecoverDraft? || pc.RecoverJob?
    || pc.RejectMessage? || pc.RejectDraft? || pc.RejectRelease? || pc.RejectJob?
    || pc.InDoubtJob? || pc.InDoubtMessage? || pc.InDoubtDraft? || pc.InDoubtLetter?
  }

  predicate IsHook(pc: Pc) {
    pc.HookRecord? || pc.HookBackfill? || pc.HookLook? || pc.HookCredit? || pc.HookMessage? || pc.HookJob?
    || pc.HookDraft?
  }

  /** The next operation of handler `id` takes effect. */
  function Advance(c: Config, id: nat, s: Shared, w: Worker): (Shared, Worker) {
    if IsRead(w.pc) then AdvanceRead(c, s, w)
    else if IsRecovery(w.pc) then AdvanceRecovery(c, s, w)
    else if IsHook(w.pc) then AdvanceHook(c, s, w)
    else AdvanceSend(c, id, s, w)
  }

  /** Operations whose exception reaches the handler's own catch block. */
  predicate Unguarded(pc: Pc) {
    IsRead(pc) || pc.InDoubtJob? || pc.InDoubtLetter?
    || pc.Claim? || HoldsClaim(pc)
  }

  /** Between a successful claim and the return of the provider. */
  predicate HoldsClaim(pc: Pc) {
    pc.ConfirmClaim? || pc.Reread? || pc.Send?
  }

  /** Operations whose exception is turned into a dead letter, after which the handler stops. */
  predicate DeadLettered(pc: Pc) {
    pc.SentMessage? || pc.SentDraft? || pc.RecoverMessage? || pc.RecoverDraft? || pc.RecoverJob?
    || pc.RejectMessage? || pc.RejectDraft? || pc.RejectRelease? || pc.RejectJob?
    || pc.FinishJob? || pc.FinishMessage? || pc.FinishDraft? || pc.Settle?
  }

  /** The next operation of handler `id` throws without effect. Only the part between the re-read and the
      provider can throw a policy error. */
  function Throw(c: Config, id: nat, s: Shared, w: Worker, policy: bool): (Shared, Worker) {
    match w.pc
    case InDoubtMessage => (s, At(w, InDoubtDraft))
    case InDoubtDraft => (s, At(w, InDoubtLetter))
    case CatchJob(p) =>
      (Released(s, id), At(w, if Exhausted(c, w, p) && w.job.Some? then CatchMessage else Stopped))
    case CatchMessage => (s, At(w, CatchDraft))
    case CatchDraft => (s, At(w, Stopped))
    case _ => if Unguarded(w.pc) then (s, At(w, CatchJob(policy && w.pc.Send?))) else (s, At(w, Stopped))
  }

  // ----- runs -----

  datatype Action =
    | Deliver(id: nat)
    | Event(id: nat, kind: EventKind, hasId: bool)
    | Step(id: nat)
    | Throws(id: nat, policy: bool)
    | ThrowsTwice(id: nat)
    | Dies(id: nat)
    | Tick(elapsed: nat)

  function Started(s: State, id: nat, pc: Pc): State {
    if id in s.workers then s
    else s.(workers := s.workers[id := Worker(pc, None, MessageRow(Open, false), Open)])
  }

  function Put(s: State, id: nat, r: (Shared, Worker)): State {
    State(r.0, s.workers[id := r.1])
  }

  /** One step of the whole system; an action of a handler that is not there does nothing. `ThrowsTwice` is an
      operation that throws and whose dead letter cannot be queued either. */
  function Apply(c: Config, s: State, a: Action): State {
    match a
    case Deliver(id) => Started(s, id, ReadJob)
    case Event(id, kind, hasId) => Started(s, id, HookRecord(kind, hasId))
    case Step(id) => if id in s.workers then Put(s, id, Advance(c, id, s.shared, s.workers[id])) else s
    case Throws(id, policy) =>
      if id in s.workers then Put(s, id, Throw(c, id, s.shared, s.workers[id], policy)) else s
    case ThrowsTwice(id) =>
      if id in s.workers && DeadLettered(s.workers[id].pc) then
        Put(s, id, (s.shared, At(s.workers[id], CatchJob(false))))
      else s
    case Dies(id) => if id in s.workers then Put(s, id, (Released(s.shared, id), At(s.workers[id], Stopped))) else s
    case Tick(elapsed) => s.(shared := s.shared.(clock := s.shared.clock + elapsed))
  }

  function Run(c: Config, s: State, actions: seq<Action>): State
    decreases |actions|
  {
    if actions == [] then s else Run(c, Apply(c, s, actions[0]), actions[1..])
  }

  predicate Initial(s: State) {
    s.workers == map[] && s.shared.job.status == Queued && s.shared.job.retryCount == 0
    && s.shared.message == MessageRow(Open, false) && s.shared.draft == Open
    && !s.shared.delivered && !s.shared.bounced
    && s.shared.holder == None && s.shared.claims == 0 && s.shared.accepted == 0 && !s.shared.hooked
  }

  // ----- faults outside the design -----

  /** Exceptions that reach the catch block of a handler without a claim, or of one whose snapshot of the
      retry count is out of date. */
  datatype Fault = FirstRead | BeforeClaim | InDoubtWrite | DeadLetter | StaleReread

  function FaultsAt(s: State, a: Action): set<Fault> {
    if a.Throws? && a.id in s.workers then
      var w := s.workers[a.id];
      match w.pc
      case ReadJob => {FirstRead}
      case ReadDraft => {BeforeClaim}
      case ReadMessage => {BeforeClaim}
      case ReadEvents => {BeforeClaim}
      case Claim => {BeforeClaim}
      case InDoubtJob => {InDoubtWrite}
      case InDoubtLetter => {DeadLetter}
      case ConfirmClaim => if Current(s.shared, w) then {} else {StaleReread}
      case Reread => if Current(s.shared, w) then {} else {StaleReread}
      case _ => {}
    else if a.ThrowsTwice? && a.id in s.workers && DeadLettered(s.workers[a.id].pc) then {DeadLetter}
    else {}
  }

  predicate Current(s: Shared, w: Worker) {
    w.job.Some? && w.job.value.retryCount == s.job.retryCount
  }

  function Faults(c: Config, s: State, actions: seq<Action>): set<Fault>
    decreases |actions|
  {
    if actions == [] then {} else FaultsAt(s, actions[0]) + Faults(c, Apply(c, s, actions[0]), actions[1..])
  }

  // ----- at most one acceptance -----

  /** Faults that cannot lead to a second send. */
  predicate Harmless(c: Config, f: Fault) {
    f == StaleReread || (c.maxRetries == 0 && f != FirstRead)
  }

  predicate AllHarmless(c: Config, faults: set<Fault>) {
    forall f :: f in faults ==> Harmless(c, f)
  }

  /** No claim is open to others while one is held or once the provider has accepted. */
  predicate SharedInv(s: Shared) {
    && s.accepted <= 1
    && (s.holder.Some? || s.accepted == 1 ==> !Claimable(s.job.status))
    && (s.holder.Some? ==> s.accepted == 0)
  }

  /** Only the holder of the claim is between claim and provider, and whoever else reaches the catch block
      knows the job and has no retry left to write. */
  predicate WorkerInv(c: Config, s: Shared, id: nat, w: Worker) {
    && (HoldsClaim(w.pc) ==> s.holder == Some(id))
    && (s.holder == Some(id) ==> HoldsClaim(w.pc) || w.pc.CatchJob?)
    && (w.pc.CatchJob? && s.holder != Some(id) ==> c.maxRetries == 0)
    && (!w.pc.ReadJob? && !IsHook(w.pc) && !w.pc.Stopped? ==> w.job.Some?)
  }

  ghost predicate Inv(c: Config, s: State) {
    && SharedInv(s.shared)
    && (forall id :: id in s.workers ==> WorkerInv(c, s.shared, id, s.workers[id]))
    && (s.shared.holder.Some? ==> s.shared.holder.value in s.workers)
  }

  /** The claim changes hands only from nobody to `id` and from `id` to nobody. */
  predicate HolderMoves(id: nat, s: Shared, t: Shared) {
    t.holder == s.holder || (s.holder == Some(id) && t.holder == None) || (s.holder == None && t.holder == Some(id))
  }

  predicate Kept(c: Config, id: nat, s: Shared, r: (Shared, Worker)) {
    SharedInv(r.0) && WorkerInv(c, r.0, id, r.1) && HolderMoves(id, s, r.0)
  }

  lemma AdvanceReadKeeps(c: Config, id: nat, s: Shared, w: Worker)
    requires IsRead(w.pc) && SharedInv(s) && WorkerInv(c, s, id, w)
    ensures Kept(c, id, s, AdvanceRead(c, s, w))
  {
  }

  lemma AdvanceRecoveryKeeps(c: Config, id: nat, s: Shared, w: Worker)
    requires IsRecovery(w.pc) && SharedInv(s) && WorkerInv(c, s, id, w)
    ensures Kept(c, id, s, AdvanceRecovery(c, s, w))
  {
    if w.pc.RecoverJob? || w.pc.RejectJob? || w.pc.InDoubtJob? {
      hide WithMessage, WithDraft;
    } else {
      hide WithStatus;
    }
  }

  lemma AdvanceHookKeeps(c: Config, id: nat, s: Shared, w: Worker)
    requires IsHook(w.pc) && SharedInv(s) && WorkerInv(c, s, id, w)
    ensures Kept(c, id, s, AdvanceHook(c, s, w))
  {
  }

  lemma AdvanceSendKeeps(c: Config, id: nat, s: Shared, w: Worker)
    requires !IsRead(w.pc) && !IsRecovery(w.pc) && !IsHook(w.pc) && SharedInv(s) && WorkerInv(c, s, id, w)
    ensures Kept(c, id, s, AdvanceSend(c, id, s, w))
  {
    hide CatchWrite, Exhausted;
    if w.pc.CatchJob? {
      CaughtKeeps(c, id, s, w, w.pc.policy);
    }
  }

  lemma CaughtKeeps(c: Config, id: nat, s: Shared, w: Worker, policy: bool)
    requires w.pc == CatchJob(policy) && SharedInv(s) && WorkerInv(c, s, id, w)
    ensures var t := Released(CatchWrite(c, s, w, policy), id);
            SharedInv(t) && HolderMoves(id, s, t) && t.holder != Some(id)
  {
  }

  lemma AdvanceKeeps(c: Config, id: nat, s: Shared, w: Worker)
    requires SharedInv(s) && WorkerInv(c, s, id, w)
    ensures Kept(c, id, s, Advance(c, id, s, w))
  {
    hide Kept, SharedInv, WorkerInv, AdvanceRead, AdvanceRecovery, AdvanceHook, AdvanceSend;
    if IsRead(w.pc) {
      AdvanceReadKeeps(c, id, s, w);
    } else if IsRecovery(w.pc) {
      AdvanceRecoveryKeeps(c, id, s, w);
    } else if IsHook(w.pc) {
      AdvanceHookKeeps(c, id, s, w);
    } else {
      AdvanceSendKeeps(c, id, s, w);
    }
  }

  lemma ThrowKeeps(c: Config, id: nat, s: Shared, w: Worker, policy: bool)
    requires SharedInv(s) && WorkerInv(c, s, id, w)
    requires AllHarmless(c, FaultsAt(State(s, map[id := w]), Throws(id, policy)))
    ensures Kept(c, id, s, Throw(c, id, s, w, policy))
  {
    hide CatchWrite, Branch;
  }

  lemma PutKeeps(c: Config, s: State, id: nat, r: (Shared, Worker))
    requires Inv(c, s) && id in s.workers && Kept(c, id, s.shared, r)
    ensures Inv(c, Put(s, id, r))
  {
    hide SharedInv, HoldsClaim, IsHook;
  }

  lemma StartKeeps(c: Config, s: State, id: nat, pc: Pc)
    requires Inv(c, s) && (pc.ReadJob? || IsHook(pc))
    ensures Inv(c, Started(s, id, pc))
  {
    hide SharedInv;
    if id !in s.workers {
      assert s.shared.holder != Some(id);
    }
  }

  lemma CatchKeeps(c: Config, s: Shared, id: nat, w: Worker)
    requires SharedInv(s) && WorkerInv(c, s, id, w) && DeadLettered(w.pc) && c.maxRetries == 0
    ensures Kept(c, id, s, (s, At(w, CatchJob(false))))
  {
  }

  lemma DeathKeeps(c: Config, s: Shared, id: nat, w: Worker)
    requires SharedInv(s) && WorkerInv(c, s, id, w)
    ensures Kept(c, id, s, (Released(s, id), At(w, Stopped)))
  {
  }

  lemma ApplyKeeps(c: Config, s: State, a: Action)
    requires Inv(c, s) && AllHarmless(c, FaultsAt(s, a))
    ensures Inv(c, Apply(c, s, a))
  {
    hide SharedInv, WorkerInv, Kept, Advance, Throw, Put, Started, Released;
    match a
    case Deliver(id) => StartKeeps(c, s, id, ReadJob);
    case Event(id, kind, hasId) => StartKeeps(c, s, id, HookRecord(kind, hasId));
    case Step(id) =>
      if id in s.workers {
        AdvanceKeeps(c, id, s.shared, s.workers[id]);
        PutKeeps(c, s, id, Advance(c, id, s.shared, s.workers[id]));
      }
    case Throws(id, policy) =>
      if id in s.workers {
        ThrowKeeps(c, id, s.shared, s.workers[id], policy);
        PutKeeps(c, s, id, Throw(c, id, s.shared, s.workers[id], policy));
      }
    case ThrowsTwice(id) =>
      if id in s.workers && DeadLettered(s.workers[id].pc) {
        assert DeadLetter in FaultsAt(s, a);
        CatchKeeps(c, s.shared, id, s.workers[id]);
        PutKeeps(c, s, id, (s.shared, At(s.workers[id], CatchJob(false))));
      }
    case Dies(id) =>
      if id in s.workers {
        DeathKeeps(c, s.shared, id, s.workers[id]);
        PutKeeps(c, s, id, (Released(s.shared, id), At(s.workers[id], Stopped)));
      }
    case Tick(elapsed) => ClockKeeps(c, s, elapsed);
  }

  lemma ClockKeeps(c: Config, s: State, elapsed: nat)
    requires Inv(c, s)
    ensures Inv(c, s.(shared := s.shared.(clock := s.shared.clock + elapsed)))
  {
  }

  lemma {:induction false} RunKeeps(c: Config, s: State, actions: seq<Action>)
    requires Inv(c, s) && AllHarmless(c, Faults(c, s, actions))
    ensures Inv(c, Run(c, s, actions))
    decreases |actions|
  {
    hide Inv, Apply, FaultsAt, Harmless;
    if actions != [] {
      ApplyKeeps(c, s, actions[0]);
      RunKeeps(c, Apply(c, s, actions[0]), actions[1..]);
    }
  }

  /** The provider accepts at most once, whatever is redelivered, interleaved, thrown or killed. */
  lemma AtMostOneAcceptance(c: Config, s: State, actions: seq<Action>)
    requires Initial(s) && AllHarmless(c, Faults(c, s, actions))
    ensures Run(c, s, actions).shared.accepted <= 1
  {
    hide Run, Faults, AllHarmless;
    RunKeeps(c, s, actions);
  }

  /** Operations that make the job final, and those that do not touch it. */
  predicate WritesFinal(pc: Pc) {
    pc.RecoverJob? || pc.RejectJob? || pc.InDoubtJob? || pc.FinishJob? || pc.HookJob?
  }

  predicate Quiet(pc: Pc) {
    !WritesFinal(pc) && !pc.Claim? && !pc.Send? && !pc.CatchJob?
  }

  predicate SameClaim(s: Shared, t: Shared) {
    t.holder == s.holder && t.claims == s.claims && t.accepted == s.accepted
    && t.job.retryCount == s.job.retryCount
  }

  lemma QuietSendStep(c: Config, id: nat, s: Shared, w: Worker)
    requires Quiet(w.pc) && !IsRead(w.pc) && !IsRecovery(w.pc) && !IsHook(w.pc)
    ensures var t := AdvanceSend(c, id, s, w).0; SameClaim(s, t) && t.job.status == s.job.status
  {
    hide CatchWrite;
  }

  lemma QuietStep(c: Config, id: nat, s: Shared, w: Worker)
    requires Quiet(w.pc)
    ensures var t := Advance(c, id, s, w).0; SameClaim(s, t) && t.job.status == s.job.status
  {
    hide AdvanceSend, Branch;
    if !IsRead(w.pc) && !IsRecovery(w.pc) && !IsHook(w.pc) {
      QuietSendStep(c, id, s, w);
    }
  }

  lemma FinalStep(c: Config, id: nat, s: Shared, w: Worker)
    requires WritesFinal(w.pc)
    ensures var t := Advance(c, id, s, w).0;
            SameClaim(s, t) && (t.job.status == Sent || t.job.status == Failed)
  {
    hide Branch, CatchWrite, AdvanceRead;
  }

  lemma CatchStep(c: Config, id: nat, s: Shared, w: Worker)
    requires w.pc.CatchJob?
    ensures Advance(c, id, s, w).0 == Released(CatchWrite(c, s, w, w.pc.policy), id)
  {
    hide CatchWrite;
  }

  lemma RetryIsWrittenByCatch(c: Config, id: nat, s: Shared, w: Worker)
    requires s.job.status != Retry && Advance(c, id, s, w).0.job.status == Retry
    ensures w.pc.CatchJob? && !Exhausted(c, w, w.pc.policy)
  {
    hide Advance, Exhausted;
    if Quiet(w.pc) {
      QuietStep(c, id, s, w);
    } else if WritesFinal(w.pc) {
      FinalStep(c, id, s, w);
    } else if w.pc.CatchJob? {
      CatchStep(c, id, s, w);
    } else {
      ClaimOrSendStep(c, id, s, w);
    }
  }

  lemma ClaimOrSendStep(c: Config, id: nat, s: Shared, w: Worker)
    requires w.pc.Claim? || w.pc.Send?
    ensures var t := Advance(c, id, s, w).0;
            t.job.retryCount == s.job.retryCount &&
            if w.pc.Send? then t == Released(s, id).(accepted := s.accepted + 1)
            else if Claimable(s.job.status) then
              t == WithStatus(s, Sending).(holder := Some(id), claims := s.claims + 1)
            else t == s
  {
    hide CatchWrite;
  }

  lemma HolderComesBeforeAcceptance(s: Shared)
    requires SharedInv(s) && s.holder.Some?
    ensures s.accepted == 0 && !Claimable(s.job.status)
  {
  }

  /** Nobody but the holder of the claim writes `retry`, and only before the provider has accepted. */
  lemma OnlyHolderWritesRetry(c: Config, s: State, a: Action)
    requires Inv(c, s) && AllHarmless(c, FaultsAt(s, a))
    requires s.shared.job.status != Retry && Apply(c, s, a).shared.job.status == Retry
    ensures a.Step? && s.shared.holder == Some(a.id) && s.shared.accepted == 0
  {
    hide SharedInv, Advance;
    if a.Step? && a.id in s.workers {
      RetryIsWrittenByCatch(c, a.id, s.shared, s.workers[a.id]);
      HolderComesBeforeAcceptance(s.shared);
    }
  }

  // ----- once closed, closed for ever -----

  /** Nobody holds a claim and none can be taken. */
  predicate Closed(s: Shared) {
    s.holder == None && !Claimable(s.job.status)
  }

  lemma ClosedStepStays(c: Config, s: State, a: Action)
    requires Inv(c, s) && AllHarmless(c, FaultsAt(s, a)) && Closed(s.shared)
    ensures var t := Apply(c, s, a).shared;
            Closed(t) && t.claims == s.shared.claims && t.accepted == s.shared.accepted
  {
    hide SharedInv, Branch;
    hide Advance;
    if a.Step? && a.id in s.workers {
      ClosedAdvanceStays(c, a.id, s.shared, s.workers[a.id]);
    }
  }

  lemma ClosedAdvanceStays(c: Config, id: nat, s: Shared, w: Worker)
    requires WorkerInv(c, s, id, w) && Closed(s)
    ensures var t := Advance(c, id, s, w).0; Closed(t) && t.claims == s.claims && t.accepted == s.accepted
  {
    hide Advance;
    if Quiet(w.pc) {
      QuietStep(c, id, s, w);
    } else if WritesFinal(w.pc) {
      FinalStep(c, id, s, w);
    } else if w.pc.Claim? {
      ClaimOrSendStep(c, id, s, w);
    } else if w.pc.CatchJob? {
      CatchStep(c, id, s, w);
    }
  }

  /** A job that was sent, that failed, or whose sender died between claim and provider is never claimed and
      never sent again. */
  lemma {:induction false} ClosedStays(c: Config, s: State, actions: seq<Action>)
    requires Inv(c, s) && AllHarmless(c, Faults(c, s, actions)) && Closed(s.shared)
    ensures var t := Run(c, s, actions).shared;
            Closed(t) && t.claims == s.shared.claims && t.accepted == s.shared.accepted
    decreases |actions|
  {
    hide Inv, Apply, FaultsAt, Harmless, Closed;
    if actions != [] {
      ApplyKeeps(c, s, actions[0]);
      ClosedStepStays(c, s, actions[0]);
      ClosedStays(c, Apply(c, s, actions[0]), actions[1..]);
    }
  }

  // ----- each remaining fault does lead to a second send -----

  lemma {:induction false} RunOfSum(c: Config, s: State, a: seq<Action>, b: seq<Action>)
    ensures Run(c, s, a + b) == Run(c, Run(c, s, a), b)
    ensures Faults(c, s, a + b) == Faults(c, s, a) + Faults(c, Run(c, s, a), b)
    decreases |a|
  {
    hide Apply, FaultsAt;
    if a == [] {
      assert a + b == b;
    } else {
      assert (a + b)[0] == a[0] && (a + b)[1..] == a[1..] + b;
      RunOfSum(c, Apply(c, s, a[0]), a[1..], b);
    }
  }

  /** `n` undisturbed steps of one handler. */
  function Steps(id: nat, n: nat): seq<Action> {
    if n == 0 then [] else [Step(id)] + Steps(id, n - 1)
  }

  function AdvanceN(c: Config, id: nat, s: Shared, w: Worker, n: nat): (Shared, Worker)
    decreases n
  {
    if n == 0 then (s, w)
    else var r := Advance(c, id, s, w); AdvanceN(c, id, r.0, r.1, n - 1)
  }

  lemma {:induction false} RunOfSteps(c: Config, s: State, id: nat, n: nat)
    requires id in s.workers
    ensures Run(c, s, Steps(id, n)) == Put(s, id, AdvanceN(c, id, s.shared, s.workers[id], n))
    ensures Faults(c, s, Steps(id, n)) == {}
    decreases n
  {
    hide Advance;
    if n == 0 {
      assert Put(s, id, (s.shared, s.workers[id])) == s;
    } else {
      var r := Advance(c, id, s.shared, s.workers[id]);
      var t := Put(s, id, r);
      assert Steps(id, n)[1..] == Steps(id, n - 1);
      RunOfSteps(c, t, id, n - 1);
      assert forall q :: Put(t, id, q) == Put(s, id, q);
    }
  }

  lemma AdvanceAdds(c: Config, id: nat, s: Shared, w: Worker, m: nat, n: nat)
    ensures var r := AdvanceN(c, id, s, w, m); AdvanceN(c, id, s, w, m + n) == AdvanceN(c, id, r.0, r.1, n)
    decreases m
  {
    hide Advance;
    if m != 0 {
      var r := Advance(c, id, s, w);
      AdvanceAdds(c, id, r.0, r.1, m - 1, n);
    }
  }

  /** The four reads leave the rows alone. */
  lemma ReadsOpen(c: Config, id: nat, s: Shared)
    ensures var w := Worker(ReadJob, None, MessageRow(Open, false), Open);
            var seen := Worker(ReadEvents, Some(s.job), s.message, s.draft);
            AdvanceN(c, id, s, w, 4) == (s, At(seen, Branch(c, seen, TerminalDeliveryOutcome(s), s.clock)))
  {
    hide Branch, TerminalDeliveryOutcome;
    var w0 := Worker(ReadJob, None, MessageRow(Open, false), Open);
    var w1 := w0.(job := Some(s.job), pc := ReadDraft);
    var w2 := w1.(draft := s.draft, pc := ReadMessage);
    var w3 := w2.(message := s.message, pc := ReadEvents);
    assert Advance(c, id, s, w0) == (s, w1) && Advance(c, id, s, w1) == (s, w2) && Advance(c, id, s, w2) == (s, w3);
    assert AdvanceN(c, id, s, w3, 1) == Advance(c, id, s, w3);
    assert AdvanceN(c, id, s, w2, 2) == AdvanceN(c, id, s, w3, 1);
    assert AdvanceN(c, id, s, w1, 3) == AdvanceN(c, id, s, w2, 2);
  }

  /** From the claim to the acceptance, undisturbed. */
  lemma ClaimSends(c: Config, id: nat, s: Shared, w: Worker)
    requires w.pc == Claim && Claimable(s.job.status) && s.holder == None
    ensures var r := AdvanceN(c, id, s, w, 4);
            r.1.pc == FinishJob && r.1.job == Some(r.0.job) &&
            r.0 == WithStatus(s, Sending).(claims := s.claims + 1, accepted := s.accepted + 1)
  {
    var s1 := WithStatus(s, Sending).(holder := Some(id), claims := s.claims + 1);
    var w1, w2 := At(w, ConfirmClaim), At(w, Reread);
    var w3 := w.(job := Some(s1.job), pc := Send);
    assert Advance(c, id, s, w) == (s1, w1) && Advance(c, id, s1, w1) == (s1, w2) && Advance(c, id, s1, w2) == (s1, w3);
    hide Advance;
    assert AdvanceN(c, id, s1, w3, 1) == Advance(c, id, s1, w3);
    assert AdvanceN(c, id, s1, w2, 2) == AdvanceN(c, id, s1, w3, 1);
    assert AdvanceN(c, id, s1, w1, 3) == AdvanceN(c, id, s1, w2, 2);
    ClaimOrSendStep(c, id, s1, w3);
    assert Advance(c, id, s1, w3).1 == At(w3, FinishJob) by { SendGoesOn(c, id, s1, w3); }
  }

  lemma SendGoesOn(c: Config, id: nat, s: Shared, w: Worker)
    requires w.pc == Send
    ensures Advance(c, id, s, w).1 == At(w, FinishJob)
  {
  }

  function Delivery8(id: nat): seq<Action> {
    [Deliver(id)] + Steps(id, 8)
  }

  /** An undisturbed delivery of a job that is open to a claim sends it. */
  lemma DeliverySends(c: Config, s: State, id: nat)
    requires id !in s.workers && Claimable(s.shared.job.status) && s.shared.holder == None
    ensures var t := Run(c, s, Delivery8(id));
            t.shared == WithStatus(s.shared, Sending).(claims := s.shared.claims + 1, accepted := s.shared.accepted + 1)
            && t.workers.Keys == s.workers.Keys + {id}
            && t.workers[id].pc == FinishJob && t.workers[id].job == Some(t.shared.job)
            && (forall other :: other in s.workers ==> t.workers[other] == s.workers[other])
    ensures Faults(c, s, Delivery8(id)) == {}
  {
    hide Advance, Run, Faults;
    var w := Worker(ReadJob, None, MessageRow(Open, false), Open);
    var t := Started(s, id, ReadJob);
    RunOfOne(c, s, Deliver(id));
    RunOfSum(c, s, [Deliver(id)], Steps(id, 8));
    RunOfSteps(c, t, id, 8);
    AdvanceAdds(c, id, s.shared, w, 4, 4);
    ReadsOpen(c, id, s.shared);
    ClaimSends(c, id, s.shared, AdvanceN(c, id, s.shared, w, 4).1);
  }

  lemma RunOfOne(c: Config, s: State, a: Action)
    ensures Run(c, s, [a]) == Apply(c, s, a) && Faults(c, s, [a]) == FaultsAt(s, a)
  {
    hide Apply, FaultsAt;
    assert Run(c, Apply(c, s, a), []) == Apply(c, s, a);
  }

  /** The catch block of a handler without a claim, with a retry left to write. */
  lemma CatchReopens(c: Config, s: State, id: nat)
    requires id in s.workers && s.workers[id].pc == CatchJob(false) && s.shared.holder == None
    requires !Exhausted(c, s.workers[id], false)
    ensures var t := Apply(c, s, Step(id)).shared;
            t.job.status == Retry && t.holder == None && t.claims == s.shared.claims && t.accepted == s.shared.accepted
    ensures Apply(c, s, Step(id)).workers.Keys == s.workers.Keys
  {
    hide Advance, Exhausted;
    CatchStep(c, id, s.shared, s.workers[id]);
  }

  function Start(): State {
    State(Shared(JobRow(Queued, 0, 0), MessageRow(Open, false), Open, false, false, 0, None, 0, 0, false), map[])
  }

  /** A first delivery that the provider accepted, still before its status write. */
  function Once(c: Config): State {
    Run(c, Start(), Delivery8(0))
  }

  lemma OnceIs(c: Config)
    ensures var s := Once(c);
            s.shared == Start().shared.(job := JobRow(Sending, 0, 0), claims := 1, accepted := 1)
            && s.workers.Keys == {0} && s.workers[0].pc == FinishJob && s.workers[0].job == Some(s.shared.job)
    ensures Faults(c, Start(), Delivery8(0)) == {} && Initial(Start())
  {
    hide Run, Faults, Delivery8;
    DeliverySends(c, Start(), 0);
  }

  /** How a handler without a claim gets to its catch block after the first acceptance. */
  function Detour(c: Config, f: Fault): seq<Action> {
    match f
    case FirstRead => [Deliver(1), Throws(1, false)]
    case BeforeClaim => [Deliver(1), Step(1), Throws(1, false)]
    case InDoubtWrite => [Dies(0), Tick(c.grace), Deliver(1)] + Steps(1, 4) + [Throws(1, false)]
    case DeadLetter => [ThrowsTwice(0)]
    case StaleReread => []
  }

  function Strayed(f: Fault): nat {
    if f == DeadLetter then 0 else 1
  }

  predicate ReadyToReopen(c: Config, s: State, id: nat) {
    id in s.workers && s.workers[id].pc == CatchJob(false) && !Exhausted(c, s.workers[id], false)
    && s.shared.holder == None && s.shared.accepted == 1 && s.workers.Keys <= {0, 1}
  }

  lemma ShortDetour(c: Config, f: Fault)
    requires !Harmless(c, f) && f != InDoubtWrite
    ensures ReadyToReopen(c, Run(c, Once(c), Detour(c, f)), Strayed(f))
    ensures Faults(c, Once(c), Detour(c, f)) == {f}
  {
    hide Once, Run, Faults;
    OnceIs(c);
    var s := Once(c);
    match f
    case DeadLetter =>
      RunOfOne(c, s, ThrowsTwice(0));
    case FirstRead =>
      RunOfTwo(c, s, Deliver(1), Throws(1, false));
    case BeforeClaim =>
      RunOfTwo(c, s, Deliver(1), Step(1));
      var t := Apply(c, Apply(c, s, Deliver(1)), Step(1));
      RunOfSum(c, s, [Deliver(1), Step(1)], [Throws(1, false)]);
      RunOfOne(c, t, Throws(1, false));
      assert [Deliver(1), Step(1)] + [Throws(1, false)] == Detour(c, f);
  }

  lemma RunOfTwo(c: Config, s: State, a: Action, b: Action)
    ensures Run(c, s, [a, b]) == Apply(c, Apply(c, s, a), b)
    ensures Faults(c, s, [a, b]) == FaultsAt(s, a) + FaultsAt(Apply(c, s, a), b)
  {
    hide Apply, FaultsAt;
    assert [a, b] == [a] + [b];
    RunOfSum(c, s, [a], [b]);
    RunOfOne(c, s, a);
    RunOfOne(c, Apply(c, s, a), b);
  }

  lemma InDoubtDetour(c: Config)
    requires c.maxRetries > 0
    ensures ReadyToReopen(c, Run(c, Once(c), Detour(c, InDoubtWrite)), 1)
    ensures Faults(c, Once(c), Detour(c, InDoubtWrite)) == {InDoubtWrite}
  {
    hide Once, Run, Faults, Advance, AdvanceN;
    OnceIs(c);
    var s := Once(c);
    var s1 := Apply(c, Apply(c, s, Dies(0)), Tick(c.grace));
    RunOfTwo(c, s, Dies(0), Tick(c.grace));
    var s2 := Apply(c, s1, Deliver(1));
    RunOfOne(c, s1, Deliver(1));
    RunOfSum(c, s, [Dies(0), Tick(c.grace)], [Deliver(1)]);
    assert [Dies(0), Tick(c.grace)] + [Deliver(1)] == [Dies(0), Tick(c.grace), Deliver(1)];
    RunOfSteps(c, s2, 1, 4);
    ReadsOpen(c, 1, s2.shared);
    var s3 := Put(s2, 1, AdvanceN(c, 1, s2.shared, s2.workers[1], 4));
    assert s3.workers[1].pc == InDoubtJob;
    RunOfSum(c, s, [Dies(0), Tick(c.grace), Deliver(1)], Steps(1, 4));
    RunOfOne(c, s3, Throws(1, false));
    RunOfSum(c, s, [Dies(0), Tick(c.grace), Deliver(1)] + Steps(1, 4), [Throws(1, false)]);
  }

  /** With any other fault allowed, some run sends twice. */
  lemma SecondSend(c: Config, f: Fault) returns (actions: seq<Action>)
    requires !Harmless(c, f)
    ensures Initial(Start()) && Faults(c, Start(), actions) == {f} && Run(c, Start(), actions).shared.accepted == 2
  {
    hide Run, Faults, Detour, Delivery8, Apply, Exhausted;
    OnceIs(c);
    if f == InDoubtWrite {
      InDoubtDetour(c);
    } else {
      ShortDetour(c, f);
    }
    var s, id := Run(c, Once(c), Detour(c, f)), Strayed(f);
    var t := Apply(c, s, Step(id));
    CatchReopens(c, s, id);
    RunOfOne(c, s, Step(id));
    DeliverySends(c, t, 2);
    RunOfSum(c, Start(), Delivery8(0), Detour(c, f));
    RunOfSum(c, Start(), Delivery8(0) + Detour(c, f), [Step(id)]);
    RunOfSum(c, Start(), Delivery8(0) + Detour(c, f) + [Step(id)], Delivery8(2));
    actions := Delivery8(0) + Detour(c, f) + [Step(id)] + Delivery8(2);
  }

  ghost predicate AlwaysOnce(c: Config, faults: set<Fault>) {
    forall s, actions :: Initial(s) && Faults(c, s, actions) <= faults ==> Run(c, s, actions).shared.accepted <= 1
  }

  /** The provider accepts at most once in every run exactly when no fault can hand the catch block to a
      handler that does not hold the claim and still has a retry to write. */
  lemma OnceExactlyWhenHarmless(c: Config, faults: set<Fault>)
    ensures AlwaysOnce(c, faults) <==> AllHarmless(c, faults)
  {
    hide Harmless, Initial;
    if AllHarmless(c, faults) {
      forall s, actions | Initial(s) && Faults(c, s, actions) <= faults
        ensures Run(c, s, actions).shared.accepted <= 1
      {
        AtMostOneAcceptance(c, s, actions);
      }
    } else {
      var f :| f in faults && !Harmless(c, f);
      var actions := SecondSend(c, f);
    }
  }
}
