/** The handler of one queue message as the straight-line program it is, run on its own rows. Every
    operation asks whether it throws; what the program does is one handler of the protocol, step by step. */
module OutboundHandler {
  import opened Jobs
  import opened Text
  import opened OutboundProtocol
  import opened OutboundOutcome

  /** How one operation ends. */
  datatype Turn = Works | Fails(policy: bool) | FailsTwice

  const FRESH := Worker(ReadJob, None, MessageRow(Open, false), Open)

  /** One step of handler `id`, ended as `turn` says. */
  function Turned(c: Config, id: nat, s: Shared, w: Worker, turn: Pc -> Turn): (Shared, Worker) {
    match turn(w.pc)
    case Works => Advance(c, id, s, w)
    case Fails(policy) => Throw(c, id, s, w, policy)
    case FailsTwice => if DeadLettered(w.pc) then (s, At(w, CatchJob(false))) else Throw(c, id, s, w, false)
  }

  function Solo(c: Config, id: nat, s: Shared, w: Worker, turn: Pc -> Turn, n: nat): (Shared, Worker)
    decreases n
  {
    if n == 0 then (s, w)
    else var r := Solo(c, id, s, w, turn, n - 1); Turned(c, id, r.0, r.1, turn)
  }

  function TurnAction(id: nat, turn: Turn): Action {
    match turn
    case Works => Step(id)
    case Fails(policy) => Throws(id, policy)
    case FailsTwice => ThrowsTwice(id)
  }

  lemma TurnedIsApply(c: Config, s: State, id: nat, turn: Pc -> Turn) returns (a: Action)
    requires id in s.workers
    ensures Apply(c, s, a) == Put(s, id, Turned(c, id, s.shared, s.workers[id], turn))
  {
    hide Advance, Throw;
    var w := s.workers[id];
    a := TurnAction(id, turn(w.pc));
    if turn(w.pc) == FailsTwice && !DeadLettered(w.pc) {
      a := Throws(id, false);
    }
  }

  /** Steps of one handler are steps of the protocol. */
  lemma {:induction false} SoloIsRun(c: Config, s: State, id: nat, turn: Pc -> Turn, n: nat)
    returns (actions: seq<Action>)
    requires id in s.workers
    ensures Run(c, s, actions) == Put(s, id, Solo(c, id, s.shared, s.workers[id], turn, n))
    decreases n
  {
    hide Run, Faults, Apply, Turned;
    if n == 0 {
      actions := [];
      RunOfNone(c, s);
      assert Put(s, id, (s.shared, s.workers[id])) == s;
    } else {
      var before := SoloIsRun(c, s, id, turn, n - 1);
      var t := Run(c, s, before);
      var last := TurnedIsApply(c, t, id, turn);
      RunOfSum(c, s, before, [last]);
      RunOfOne(c, t, last);
      actions := before + [last];
      assert forall q :: Put(t, id, q) == Put(s, id, q);
    }
  }

  lemma RunOfNone(c: Config, s: State)
    ensures Run(c, s, []) == s
  {
  }

  lemma GuardedTurn(c: Config, id: nat, s: Shared, w: Worker, turn: Pc -> Turn)
    requires DeadLettered(w.pc)
    ensures Turned(c, id, s, w, turn) ==
            if turn(w.pc).Works? then Advance(c, id, s, w)
            else (s, At(w, if turn(w.pc) == FailsTwice then CatchJob(false) else Stopped))
  {
    hide Advance;
  }

  lemma CatchTurn(c: Config, id: nat, s: Shared, w: Worker, turn: Pc -> Turn)
    requires w.pc.CatchJob? && (w.pc.policy ==> w.job.Some?)
    ensures Turned(c, id, s, w, turn) ==
            (Released(if turn(w.pc).Works? then CatchWrite(c, s, w, w.pc.policy) else s, id),
             At(w, if Exhausted(c, w, w.pc.policy) then CatchMessage else Stopped))
  {
    hide CatchWrite;
  }

  /** What the operations after an acceptance do, and where each leads. */
  lemma FinishSteps(c: Config, id: nat, s: Shared, w: Worker)
    ensures w.pc == FinishJob ==> Advance(c, id, s, w) == (WithStatus(s, Sent), At(w, FinishMessage))
    ensures w.pc == FinishMessage ==>
              Advance(c, id, s, w) == (s.(message := MessageRow(Done, true)), At(w, FinishDraft))
    ensures w.pc == FinishDraft ==> Advance(c, id, s, w) == (WithDraft(c, s, Done), At(w, Settle))
    ensures w.pc == Settle ==> Advance(c, id, s, w) == (s, At(w, Stopped))
  {
    hide WithStatus, WithDraft, CatchWrite, Exhausted;
  }

  /** The same for a job that is sent already, after the checks of message and draft. */
  lemma SentSteps(c: Config, id: nat, s: Shared, w: Worker)
    ensures w.pc == SentMessage ==>
              Advance(c, id, s, w) == (if w.message.mark != Done then WithMessage(s, Done) else s, At(w, SentDraft))
    ensures w.pc == SentDraft ==>
              Advance(c, id, s, w) == (if w.draft != Done then WithDraft(c, s, Done) else s, At(w, Settle))
  {
    hide WithStatus, WithDraft, WithMessage, AdvanceSend;
  }

  /** The same after the status write of the catch block, whose exceptions are swallowed. */
  lemma AbandonSteps(c: Config, id: nat, s: Shared, w: Worker, policy: bool)
    ensures w.pc == CatchMessage ==>
              (Advance(c, id, s, w) == (WithMessage(s, Broken), At(w, CatchDraft))
               && Throw(c, id, s, w, policy) == (s, At(w, CatchDraft)))
    ensures w.pc == CatchDraft ==>
              (Advance(c, id, s, w) == (WithDraft(c, s, Broken), At(w, Stopped))
               && Throw(c, id, s, w, policy) == (s, At(w, Stopped)))
  {
    hide WithStatus, WithDraft, WithMessage, CatchWrite, Exhausted;
  }

  /** The same for a job that recovery finds accepted. */
  lemma RecoverSteps(c: Config, id: nat, s: Shared, w: Worker)
    ensures w.pc == RecoverMessage ==> Advance(c, id, s, w) == (WithMessage(s, Done), At(w, RecoverDraft))
    ensures w.pc == RecoverDraft ==> Advance(c, id, s, w) == (WithDraft(c, s, Done), At(w, RecoverJob))
    ensures w.pc == RecoverJob ==> Advance(c, id, s, w) == (WithStatus(s, Sent), At(w, Settle))
  {
    hide WithStatus, WithDraft, WithMessage, AdvanceSend;
  }

  /** The same for a job that is found failed. */
  lemma RejectSteps(c: Config, id: nat, s: Shared, w: Worker)
    ensures w.pc == RejectMessage ==> Advance(c, id, s, w) == (WithMessage(s, Broken), At(w, RejectDraft))
    ensures w.pc == RejectDraft ==> Advance(c, id, s, w) == (WithDraft(c, s, Broken), At(w, RejectRelease))
    ensures w.pc == RejectRelease ==> Advance(c, id, s, w) == (s, At(w, RejectJob))
    ensures w.pc == RejectJob ==> Advance(c, id, s, w) == (WithStatus(s, Failed), At(w, Stopped))
  {
    hide WithStatus, WithDraft, WithMessage, AdvanceSend;
  }

  /** The same for giving up, where exceptions of the two marks are swallowed. */
  lemma DoubtSteps(c: Config, id: nat, s: Shared, w: Worker, policy: bool)
    ensures w.pc == InDoubtMessage ==>
              (Advance(c, id, s, w) == (WithMessage(s, Broken), At(w, InDoubtDraft))
               && Throw(c, id, s, w, policy) == (s, At(w, InDoubtDraft)))
    ensures w.pc == InDoubtDraft ==>
              (Advance(c, id, s, w) == (WithDraft(c, s, Broken), At(w, InDoubtLetter))
               && Throw(c, id, s, w, policy) == (s, At(w, InDoubtLetter)))
  {
    hide WithStatus, WithDraft, WithMessage, AdvanceSend;
  }

  /** When every operation works, the handler of the protocol advances undisturbed. */
  lemma {:induction false} SoloIsAdvance(c: Config, id: nat, s: Shared, turn: Pc -> Turn, n: nat)
    requires forall pc :: turn(pc).Works?
    ensures Solo(c, id, s, FRESH, turn, n) == AdvanceN(c, id, s, FRESH, n)
    decreases n
  {
    hide Advance, Throw;
    if n > 0 {
      SoloIsAdvance(c, id, s, turn, n - 1);
      AdvanceAdds(c, id, s, FRESH, n - 1, 1);
      var r := AdvanceN(c, id, s, FRESH, n - 1);
      assert AdvanceN(c, id, r.0, r.1, 1) == Advance(c, id, r.0, r.1) by { Next(c, id, r.0, r.1, 1); }
    }
  }

  lemma EndIsHandled(c: Config, id: nat, s: Shared, turn: Pc -> Turn, n: nat, last: nat)
    requires (forall pc :: turn(pc).Works?) && s.holder == None && Solo(c, id, s, FRESH, turn, n).1.pc == Stopped
    requires last == 12
    ensures Handled(c, s, Solo(c, id, s, FRESH, turn, n).0)
  {
    hide Solo, Handled, AdvanceN, Advance;
    SoloIsAdvance(c, id, s, turn, n);
    UndisturbedDelivery(c, id, s, last);
    var r, t := AdvanceN(c, id, s, FRESH, n), AdvanceN(c, id, s, FRESH, last);
    AdvanceAdds(c, id, s, FRESH, n, last);
    AdvanceAdds(c, id, s, FRESH, last, n);
    StoppedStays(c, id, r.0, r.1, last);
    StoppedStays(c, id, t.0, t.1, n);
  }

  // ----- what becomes of the queue message -----

  /** The first operation of a path that does not work. */
  function FirstBad(path: seq<Pc>, turn: Pc -> Turn): Option<Pc> {
    if path == [] then None else if turn(path[0]).Works? then FirstBad(path[1..], turn) else Some(path[0])
  }

  lemma {:induction false} FirstBadOfSum(a: seq<Pc>, b: seq<Pc>, turn: Pc -> Turn)
    ensures FirstBad(a + b, turn) == if FirstBad(a, turn).Some? then FirstBad(a, turn) else FirstBad(b, turn)
  {
    if a == [] {
      assert a + b == b;
    } else {
      assert (a + b)[0] == a[0] && (a + b)[1..] == a[1..] + b;
      FirstBadOfSum(a[1..], b, turn);
    }
  }

  lemma FirstBadOfOne(a: Pc, turn: Pc -> Turn)
    ensures FirstBad([a], turn) == if turn(a).Works? then None else Some(a)
  {
    assert [a][1..] == [];
  }

  lemma FirstBadOfThree(a: Pc, b: Pc, c: Pc, turn: Pc -> Turn)
    ensures FirstBad([a, b, c], turn) ==
            if !turn(a).Works? then Some(a) else if !turn(b).Works? then Some(b)
            else if !turn(c).Works? then Some(c) else None
  {
    hide FirstBad;
    assert [a, b, c] == [a] + [b] + [c];
    FirstBadOfSum([a] + [b], [c], turn);
    FirstBadOfSum([a], [b], turn);
    FirstBadOfOne(a, turn);
    FirstBadOfOne(b, turn);
    FirstBadOfOne(c, turn);
  }

  lemma FirstBadOfFour(a: Pc, b: Pc, c: Pc, d: Pc, turn: Pc -> Turn)
    ensures FirstBad([a, b, c, d], turn) ==
            if !turn(a).Works? then Some(a) else if !turn(b).Works? then Some(b)
            else if !turn(c).Works? then Some(c) else if !turn(d).Works? then Some(d) else None
  {
    hide FirstBad;
    assert [a, b, c, d] == [a, b, c] + [d];
    FirstBadOfSum([a, b, c], [d], turn);
    FirstBadOfThree(a, b, c, turn);
    FirstBadOfOne(d, turn);
  }

  const OPENING := [ReadJob, ReadDraft, ReadMessage, ReadEvents]
  const SENT := [SentMessage, SentDraft, Settle]
  const RECOVERY := [RecoverMessage, RecoverDraft, RecoverJob, Settle]
  const REJECTION := [RejectMessage, RejectDraft, RejectRelease, RejectJob]
  const DOUBT := [InDoubtJob, InDoubtLetter]
  const SENDING := [Claim, ConfirmClaim, Reread, Send]
  const RECORDING := [FinishJob, FinishMessage, FinishDraft, Settle]

  /** A job in flight about which nothing is known, within the grace period. */
  predicate Young(c: Config, s: Shared) {
    s.job.status == Sending && !KnownSent(s) && !KnownFailed(s) && s.clock - s.job.updatedAt < c.grace
  }

  /** The operations after the reads whose exceptions matter, in order, for the rows found. */
  function Path(c: Config, s: Shared): seq<Pc> {
    if s.job.status == Sent then SENT
    else if s.job.status == Sending then
      if KnownSent(s) then RECOVERY else if KnownFailed(s) then REJECTION else if Young(c, s) then [] else DOUBT
    else if Claimable(s.job.status) then SENDING + RECORDING
    else [Claim]
  }

  /** Whether the try block acknowledges, and what it throws to the catch block, if anything: a policy error or
      another. `bad` is the first operation that does not work. */
  function Tried(bad: Option<Pc>, turn: Pc -> Turn): (bool, Option<bool>) {
    if bad.None? then (true, None)
    else if DeadLettered(bad.value) && turn(bad.value) != FailsTwice then
      (bad.value == FinishJob || bad.value == FinishMessage || bad.value == FinishDraft, None)
    else (false, Some(bad.value == Send && turn(Send) == Fails(true)))
  }

  /** Whether the queue message is acknowledged. `letter` is whether the dead letter of the catch block is queued. */
  function Acknowledges(c: Config, s: Shared, turn: Pc -> Turn, letter: bool): bool {
    var bad := FirstBad(OPENING + Path(c, s), turn);
    var tried := Tried(bad, turn);
    if tried.1.None? then tried.0 && !Young(c, s)
    else letter && (tried.1.value || (bad != Some(ReadJob) && s.job.retryCount + 1 > c.maxRetries))
  }

  /** A dead-lettered operation outside the recording of an acceptance goes back to the queue, or to the catch block. */
  lemma GoesBack(pc: Pc, turn: Pc -> Turn)
    requires DeadLettered(pc) && !pc.FinishJob? && !pc.FinishMessage? && !pc.FinishDraft? && !turn(pc).Works?
    ensures Tried(Some(pc), turn) == (false, if turn(pc) == FailsTwice then Some(false) else None)
  {
  }

  /** A status write after the acceptance is left to its dead letter. */
  lemma StaysRecorded(pc: Pc, turn: Pc -> Turn)
    requires (pc.FinishJob? || pc.FinishMessage? || pc.FinishDraft?) && !turn(pc).Works?
    ensures Tried(Some(pc), turn)
            == (turn(pc) != FailsTwice, if turn(pc) == FailsTwice then Some(false) else None)
  {
  }

  lemma ReadsGoToCatch(turn: Pc -> Turn)
    ensures forall pc :: IsRead(pc) ==> Tried(Some(pc), turn) == (false, Some(false))
  {
  }

  lemma AllWork(turn: Pc -> Turn)
    ensures Tried(None, turn) == (true, None)
  {
  }

  lemma NothingBad(path: seq<Pc>, turn: Pc -> Turn)
    requires forall pc :: turn(pc).Works?
    ensures FirstBad(path, turn) == None
  {
  }

  /** When every operation works, exactly a young job in flight about which nothing is known goes back to the
      queue. */
  lemma UndisturbedAcknowledges(c: Config, s: Shared, turn: Pc -> Turn, letter: bool)
    requires forall pc :: turn(pc).Works?
    ensures Acknowledges(c, s, turn, letter) <==>
            !(s.job.status == Sending && !s.message.provider && s.message.mark == Open
              && !s.delivered && !s.bounced && s.clock - s.job.updatedAt < c.grace)
  {
    NothingBad(OPENING + Path(c, s), turn);
  }

  lemma NoPath(turn: Pc -> Turn)
    ensures FirstBad([], turn) == None
  {
  }

  lemma DoubtPath(turn: Pc -> Turn)
    ensures FirstBad(DOUBT, turn)
            == if !turn(InDoubtJob).Works? then Some(InDoubtJob)
               else if !turn(InDoubtLetter).Works? then Some(InDoubtLetter) else None
  {
    hide FirstBad;
    FirstBadOfSum([InDoubtJob], [InDoubtLetter], turn);
    FirstBadOfOne(InDoubtJob, turn);
    FirstBadOfOne(InDoubtLetter, turn);
    assert DOUBT == [InDoubtJob] + [InDoubtLetter];
  }

  lemma ClaimComesFirst(turn: Pc -> Turn)
    ensures FirstBad([Claim], turn) == if turn(Claim).Works? then None else Some(Claim)
    ensures FirstBad(SENDING + RECORDING, turn)
            == if !turn(Claim).Works? then Some(Claim)
               else FirstBad([ConfirmClaim] + [Reread] + [Send] + RECORDING, turn)
  {
    hide FirstBad;
    FirstBadOfOne(Claim, turn);
    FirstBadOfSum([Claim], [ConfirmClaim] + [Reread] + [Send] + RECORDING, turn);
    assert SENDING + RECORDING == [Claim] + ([ConfirmClaim] + [Reread] + [Send] + RECORDING);
  }

  lemma {:induction false} BadIsOnPath(path: seq<Pc>, turn: Pc -> Turn)
    ensures FirstBad(path, turn).Some? ==> FirstBad(path, turn).value in path
  {
    if path != [] {
      BadIsOnPath(path[1..], turn);
    }
  }

  lemma AfterClaim(turn: Pc -> Turn)
    ensures FirstBad([ConfirmClaim] + [Reread] + [Send] + RECORDING, turn)
            == if !turn(ConfirmClaim).Works? then Some(ConfirmClaim)
               else if !turn(Reread).Works? then Some(Reread)
               else FirstBad([Send] + RECORDING, turn)
  {
    hide FirstBad;
    FirstBadOfSum([ConfirmClaim], [Reread] + ([Send] + RECORDING), turn);
    FirstBadOfSum([Reread], [Send] + RECORDING, turn);
    FirstBadOfOne(ConfirmClaim, turn);
    FirstBadOfOne(Reread, turn);
    assert [ConfirmClaim] + [Reread] + [Send] + RECORDING == [ConfirmClaim] + ([Reread] + ([Send] + RECORDING));
  }

  lemma RecordingPath(turn: Pc -> Turn)
    ensures FirstBad(RECORDING, turn)
            == if !turn(FinishJob).Works? then Some(FinishJob) else FirstBad([FinishMessage, FinishDraft, Settle], turn)
  {
    hide FirstBad;
    FirstBadOfSum([FinishJob], [FinishMessage, FinishDraft, Settle], turn);
    FirstBadOfOne(FinishJob, turn);
    assert RECORDING == [FinishJob] + [FinishMessage, FinishDraft, Settle];
  }

  /** The reads only come first. */
  lemma LaterOnPath(c: Config, s: Shared, turn: Pc -> Turn)
    ensures FirstBad(Path(c, s), turn) != Some(ReadJob)
  {
    hide FirstBad;
    BadIsOnPath(Path(c, s), turn);
  }

  lemma OpeningWorks(rest: seq<Pc>, turn: Pc -> Turn)
    requires turn(ReadJob).Works? && turn(ReadDraft).Works? && turn(ReadMessage).Works? && turn(ReadEvents).Works?
    ensures FirstBad(OPENING + rest, turn) == FirstBad(rest, turn)
  {
    hide FirstBad;
    FirstBadOfSum(OPENING, rest, turn);
    FirstBadOfFour(ReadJob, ReadDraft, ReadMessage, ReadEvents, turn);
  }

  /** When only the send of an open job throws, the message is acknowledged exactly when no retry is left or the policy
      forbids the send. */
  lemma FailedSendAcknowledges(c: Config, s: Shared, turn: Pc -> Turn, letter: bool)
    requires Claimable(s.job.status) && !turn(Send).Works? && forall pc :: pc != Send ==> turn(pc).Works?
    ensures Acknowledges(c, s, turn, letter) <==>
            letter && (turn(Send) == Fails(true) || s.job.retryCount + 1 > c.maxRetries)
  {
    hide FirstBad;
    OpeningWorks(SENDING + RECORDING, turn);
    FirstBadOfSum(SENDING, RECORDING, turn);
    FirstBadOfFour(Claim, ConfirmClaim, Reread, Send, turn);
  }

  /** Once the provider has accepted, the message is acknowledged exactly when the settlement works, or when the first
      status write that throws has its dead letter queued; when a dead letter is not queued, as by the catch block:
      when no retry is left. */
  lemma AcceptedAcknowledges(c: Config, s: Shared, turn: Pc -> Turn, letter: bool)
    requires Claimable(s.job.status)
    requires forall pc: Pc :: !(pc.FinishJob? || pc.FinishMessage? || pc.FinishDraft? || pc.Settle?) ==> turn(pc).Works?
    ensures var exhausted := letter && s.job.retryCount + 1 > c.maxRetries;
            Acknowledges(c, s, turn, letter) <==>
            if !turn(FinishJob).Works? then turn(FinishJob).Fails? || exhausted
            else if !turn(FinishMessage).Works? then turn(FinishMessage).Fails? || exhausted
            else if !turn(FinishDraft).Works? then turn(FinishDraft).Fails? || exhausted
            else turn(Settle).Works? || (turn(Settle) == FailsTwice && exhausted)
  {
    hide FirstBad;
    OpeningWorks(SENDING + RECORDING, turn);
    FirstBadOfSum(SENDING, RECORDING, turn);
    FirstBadOfFour(Claim, ConfirmClaim, Reread, Send, turn);
    FirstBadOfFour(FinishJob, FinishMessage, FinishDraft, Settle, turn);
  }

  /** An exception in a read goes back to the queue unless the job is known and has no retry left. */
  lemma FailedReadAcknowledges(c: Config, s: Shared, turn: Pc -> Turn, letter: bool, pc: Pc)
    requires IsRead(pc) && !turn(pc).Works? && forall other :: other != pc ==> turn(other).Works?
    ensures Acknowledges(c, s, turn, letter) <==> letter && pc != ReadJob && s.job.retryCount + 1 > c.maxRetries
  {
    hide FirstBad;
    FirstBadOfSum(OPENING, Path(c, s), turn);
    FirstBadOfFour(ReadJob, ReadDraft, ReadMessage, ReadEvents, turn);
    hide Path;
  }

  class Rows {
    const c: Config
    const id: nat
    const turn: Pc -> Turn
    /** Whether the dead letter of the catch block is queued. */
    const letter: bool

    var status: JobStatus
    var retryCount: nat
    var updatedAt: nat
    var messageMark: Mark
    var messageProvider: bool
    var draftMark: Mark
    var delivered: bool
    var bounced: bool
    var clock: nat
    ghost var holder: Option<nat>
    ghost var claims: nat
    ghost var accepted: nat
    ghost var hooked: bool

    /** The handler of the protocol that this program is, and how far it got. */
    ghost var origin: Shared
    ghost var worker: Worker
    ghost var steps: nat

    constructor (c: Config, id: nat, turn: Pc -> Turn, letter: bool, s: Shared)
      ensures this.c == c && this.id == id && this.turn == turn && this.letter == letter
      ensures Now() == s && origin == s && worker == FRESH && steps == 0
    {
      this.c, this.id, this.turn, this.letter := c, id, turn, letter;
      status, retryCount, updatedAt := s.job.status, s.job.retryCount, s.job.updatedAt;
      messageMark, messageProvider, draftMark := s.message.mark, s.message.provider, s.draft;
      delivered, bounced, clock := s.delivered, s.bounced, s.clock;
      holder, claims, accepted, hooked := s.holder, s.claims, s.accepted, s.hooked;
      origin, worker, steps := s, FRESH, 0;
    }

    ghost function Now(): Shared
      reads this
    {
      Shared(JobRow(status, retryCount, updatedAt), MessageRow(messageMark, messageProvider), draftMark,
             delivered, bounced, clock, holder, claims, accepted, hooked)
    }

    ghost predicate Valid()
      reads this
    {
      Solo(c, id, origin, FRESH, turn, steps) == (Now(), worker)
    }

    /** The operation that stood next is over. */
    ghost method Over(s: Shared)
      requires Solo(c, id, origin, FRESH, turn, steps) == (s, worker)
      requires Turned(c, id, s, worker, turn).0 == Now()
      modifies this`worker, this`steps
      ensures Valid() && worker == Turned(c, id, s, old(worker), turn).1
    {
      hide Turned;
      worker := Turned(c, id, s, worker, turn).1;
      steps := steps + 1;
    }

    // ----- operations on the tables; each may throw -----

    method ReadOutboundJob(pc: Pc) returns (ok: bool, job: JobRow)
      requires Valid() && worker.pc == pc && (pc == ReadJob || pc == Reread)
      modifies this`worker, this`steps
      ensures Valid() && job == Now().job && ok == turn(pc).Works?
      ensures worker == if !ok then At(old(worker), CatchJob(false))
                        else old(worker).(job := Some(job), pc := if pc == ReadJob then ReadDraft else Send)
    {
      ok, job := turn(pc).Works?, JobRow(status, retryCount, updatedAt);
      Over(Now());
    }

    method ReadDraftStatus() returns (ok: bool, draft: Mark)
      requires Valid() && worker.pc == ReadDraft
      modifies this`worker, this`steps
      ensures Valid() && draft == draftMark && ok == turn(ReadDraft).Works?
      ensures worker == if ok then old(worker).(draft := draft, pc := ReadMessage)
                        else At(old(worker), CatchJob(false))
    {
      ok, draft := turn(ReadDraft).Works?, draftMark;
      Over(Now());
    }

    method ReadOutboundMessage() returns (ok: bool, message: MessageRow)
      requires Valid() && worker.pc == ReadMessage
      modifies this`worker, this`steps
      ensures Valid() && message == Now().message && ok == turn(ReadMessage).Works?
      ensures worker == if ok then old(worker).(message := message, pc := ReadEvents)
                        else At(old(worker), CatchJob(false))
    {
      ok, message := turn(ReadMessage).Works?, MessageRow(messageMark, messageProvider);
      Over(Now());
    }

    method ListDeliveryEvents() returns (ok: bool, outcome: Outcome)
      requires Valid() && worker.pc == ReadEvents && worker.job.Some?
      modifies this`worker, this`steps
      ensures Valid() && outcome == TerminalDeliveryOutcome(Now()) && ok == turn(ReadEvents).Works?
      ensures worker == if ok then At(old(worker), Branch(c, old(worker), outcome, clock))
                        else At(old(worker), CatchJob(false))
    {
      hide Branch;
      ok := turn(ReadEvents).Works?;
      outcome := if delivered then OutcomeSent else if bounced then OutcomeFailed else NoOutcome;
      Over(Now());
    }

    /** Where the handler of the protocol goes when a dead-lettered operation ends. */
    ghost predicate Guarded(was: Worker, pc: Pc, ok: bool, next: Pc)
      reads this
    {
      && Valid() && ok == turn(pc).Works?
      && worker == At(was, if ok then next else if turn(pc) == FailsTwice then CatchJob(false) else Stopped)
    }

    method UpdateOutboundJobStatus(pc: Pc, next: JobStatus, ghost goal: Pc) returns (ok: bool)
      requires Valid() && worker.pc == pc && DeadLettered(pc)
      requires Advance(c, id, Now(), worker) == (WithStatus(Now(), next), At(worker, goal))
      modifies this`status, this`updatedAt, this`worker, this`steps
      ensures Guarded(old(worker), pc, ok, goal)
      ensures status == if ok then next else old(status)
    {
      ghost var before := Now();
      ok := turn(pc).Works?;
      if ok {
        status, updatedAt := next, clock;
      }
      hide Advance, Throw, Turned, DeadLettered;
      GuardedTurn(c, id, before, worker, turn);
      Over(before);
    }

    method UpdateMessageStatus(pc: Pc, mark: Mark, ghost goal: Pc) returns (ok: bool)
      requires Valid() && worker.pc == pc && DeadLettered(pc)
      requires Advance(c, id, Now(), worker) == (WithMessage(Now(), mark), At(worker, goal))
      modifies this`messageMark, this`worker, this`steps
      ensures Guarded(old(worker), pc, ok, goal)
    {
      ghost var before := Now();
      ok := turn(pc).Works?;
      if ok {
        messageMark := mark;
      }
      hide Advance, Throw, Turned, DeadLettered;
      GuardedTurn(c, id, before, worker, turn);
      Over(before);
    }

    method MarkDraftStatus(pc: Pc, mark: Mark, ghost goal: Pc) returns (ok: bool)
      requires Valid() && worker.pc == pc && DeadLettered(pc)
      requires Advance(c, id, Now(), worker) == (WithDraft(c, Now(), mark), At(worker, goal))
      modifies this`draftMark, this`worker, this`steps
      ensures Guarded(old(worker), pc, ok, goal)
    {
      ghost var before := Now();
      ok := turn(pc).Works?;
      if ok && c.hasDraft {
        draftMark := mark;
      }
      hide Advance, Throw, Turned, DeadLettered;
      GuardedTurn(c, id, before, worker, turn);
      Over(before);
    }

    /** An operation that writes none of these rows: settlement, release, or a write that is skipped. */
    method Elsewhere(pc: Pc, ghost goal: Pc) returns (ok: bool)
      requires Valid() && worker.pc == pc && DeadLettered(pc)
      requires Advance(c, id, Now(), worker) == (Now(), At(worker, goal))
      modifies this`worker, this`steps
      ensures Guarded(old(worker), pc, ok, goal)
    {
      hide Advance, Throw, Turned, DeadLettered;
      ok := turn(pc).Works?;
      GuardedTurn(c, id, Now(), worker, turn);
      Over(Now());
    }

    /** A write whose exception is swallowed. */
    method TryMessageFailed(pc: Pc, ghost goal: Pc)
      requires Valid() && worker.pc == pc && !DeadLettered(pc)
      requires Advance(c, id, Now(), worker) == (WithMessage(Now(), Broken), At(worker, goal))
      requires forall policy :: Throw(c, id, Now(), worker, policy) == (Now(), At(worker, goal))
      modifies this`messageMark, this`worker, this`steps
      ensures Valid() && worker == At(old(worker), goal)
    {
      hide Advance, Throw, DeadLettered;
      ghost var before := Now();
      if turn(pc).Works? {
        messageMark := Broken;
      }
      Over(before);
    }

    method TryDraftFailed(pc: Pc, ghost goal: Pc)
      requires Valid() && worker.pc == pc && !DeadLettered(pc)
      requires Advance(c, id, Now(), worker) == (WithDraft(c, Now(), Broken), At(worker, goal))
      requires forall policy :: Throw(c, id, Now(), worker, policy) == (Now(), At(worker, goal))
      modifies this`draftMark, this`worker, this`steps
      ensures Valid() && worker == At(old(worker), goal)
    {
      hide Advance, Throw, DeadLettered;
      ghost var before := Now();
      if turn(pc).Works? && c.hasDraft {
        draftMark := Broken;
      }
      Over(before);
    }

    // ----- branches -----

    /** The job is already `sent`: bring message and draft in line and charge. */
    method FinishSent(message: MessageRow, draft: Mark) returns (acked: bool, caught: bool)
      requires Valid() && worker.pc == SentMessage && worker.message == message && worker.draft == draft
      modifies this`messageMark, this`draftMark, this`worker, this`steps
      ensures Valid() && worker.job == old(worker.job)
      ensures worker.pc == if caught then CatchJob(false) else Stopped
      ensures (acked, if caught then Some(false) else None) == Tried(FirstBad(SENT, turn), turn)
    {
      hide Advance, Valid, WithDraft, WithMessage, WithStatus, FirstBad, Tried, Throw, Turned;
      FirstBadOfThree(SentMessage, SentDraft, Settle, turn);
      SentSteps(c, id, Now(), worker);
      var ok;
      if message.mark != Done {
        ok := UpdateMessageStatus(SentMessage, Done, SentDraft);
      } else {
        ok := Elsewhere(SentMessage, SentDraft);
      }
      if !ok {
        GoesBack(SentMessage, turn);
        return false, turn(SentMessage) == FailsTwice;
      }
      SentSteps(c, id, Now(), worker);
      if draft != Done {
        ok := MarkDraftStatus(SentDraft, Done, Settle);
      } else {
        ok := Elsewhere(SentDraft, Settle);
      }
      if !ok {
        GoesBack(SentDraft, turn);
        return false, turn(SentDraft) == FailsTwice;
      }
      FinishSteps(c, id, Now(), worker);
      ok := Elsewhere(Settle, Stopped);
      if !ok {
        GoesBack(Settle, turn);
      }
      AllWork(turn);
      return ok, turn(Settle) == FailsTwice;
    }

    /** The job is in flight and there is evidence that the provider accepted. */
    method RecoverSending() returns (acked: bool, caught: bool)
      requires Valid() && worker.pc == RecoverMessage
      modifies this`messageMark, this`draftMark, this`status, this`updatedAt, this`worker, this`steps
      ensures Valid() && worker.job == old(worker.job)
      ensures worker.pc == if caught then CatchJob(false) else Stopped
      ensures acked ==> status == Sent
      ensures (acked, if caught then Some(false) else None) == Tried(FirstBad(RECOVERY, turn), turn)
    {
      hide Advance, Valid, WithDraft, WithMessage, WithStatus, FirstBad, Tried, Throw, Turned;
      FirstBadOfFour(RecoverMessage, RecoverDraft, RecoverJob, Settle, turn);
      RecoverSteps(c, id, Now(), worker);
      var ok := UpdateMessageStatus(RecoverMessage, Done, RecoverDraft);
      if !ok {
        GoesBack(RecoverMessage, turn);
        return false, turn(RecoverMessage) == FailsTwice;
      }
      RecoverSteps(c, id, Now(), worker);
      ok := MarkDraftStatus(RecoverDraft, Done, RecoverJob);
      if !ok {
        GoesBack(RecoverDraft, turn);
        return false, turn(RecoverDraft) == FailsTwice;
      }
      RecoverSteps(c, id, Now(), worker);
      ok := UpdateOutboundJobStatus(RecoverJob, Sent, Settle);
      if !ok {
        GoesBack(RecoverJob, turn);
        return false, turn(RecoverJob) == FailsTwice;
      }
      FinishSteps(c, id, Now(), worker);
      ok := Elsewhere(Settle, Stopped);
      if !ok {
        GoesBack(Settle, turn);
      }
      AllWork(turn);
      return ok, turn(Settle) == FailsTwice;
    }

    /** The job is in flight and there is evidence that it failed. */
    method RejectSending() returns (acked: bool, caught: bool)
      requires Valid() && worker.pc == RejectMessage
      modifies this`messageMark, this`draftMark, this`status, this`updatedAt, this`worker, this`steps
      ensures Valid() && worker.job == old(worker.job)
      ensures worker.pc == if caught then CatchJob(false) else Stopped
      ensures acked ==> status == Failed
      ensures (acked, if caught then Some(false) else None) == Tried(FirstBad(REJECTION, turn), turn)
    {
      hide Advance, Valid, WithDraft, WithMessage, WithStatus, FirstBad, Tried, Throw, Turned;
      FirstBadOfFour(RejectMessage, RejectDraft, RejectRelease, RejectJob, turn);
      RejectSteps(c, id, Now(), worker);
      var ok := UpdateMessageStatus(RejectMessage, Broken, RejectDraft);
      if !ok {
        GoesBack(RejectMessage, turn);
        return false, turn(RejectMessage) == FailsTwice;
      }
      RejectSteps(c, id, Now(), worker);
      ok := MarkDraftStatus(RejectDraft, Broken, RejectRelease);
      if !ok {
        GoesBack(RejectDraft, turn);
        return false, turn(RejectDraft) == FailsTwice;
      }
      RejectSteps(c, id, Now(), worker);
      ok := Elsewhere(RejectRelease, RejectJob);
      if !ok {
        GoesBack(RejectRelease, turn);
        return false, turn(RejectRelease) == FailsTwice;
      }
      RejectSteps(c, id, Now(), worker);
      ok := UpdateOutboundJobStatus(RejectJob, Failed, Stopped);
      if !ok {
        GoesBack(RejectJob, turn);
      }
      AllWork(turn);
      return ok, turn(RejectJob) == FailsTwice;
    }

    /** The job has been in flight for longer than the grace period and nothing is known about it: only the
        status write may throw, the others swallow their exceptions. */
    method GiveUp() returns (acked: bool, caught: bool)
      requires Valid() && worker.pc == InDoubtJob
      modifies this`messageMark, this`draftMark, this`status, this`updatedAt, this`worker, this`steps
      ensures Valid() && worker.job == old(worker.job)
      ensures worker.pc == if caught then CatchJob(false) else Stopped
      ensures acked ==> status == Failed
      ensures (acked, if caught then Some(false) else None) == Tried(FirstBad(DOUBT, turn), turn)
    {
      hide FirstBad, Advance, Throw, Valid, WithDraft, WithMessage;
      DoubtPath(turn);
      var ok := FailInDoubt();
      if !ok {
        return false, true;
      }
      forall any ensures Throw(c, id, Now(), worker, any) == (Now(), At(worker, InDoubtDraft)) {
        DoubtSteps(c, id, Now(), worker, any);
      }
      DoubtSteps(c, id, Now(), worker, false);
      TryMessageFailed(InDoubtMessage, InDoubtDraft);
      forall any ensures Throw(c, id, Now(), worker, any) == (Now(), At(worker, InDoubtLetter)) {
        DoubtSteps(c, id, Now(), worker, any);
      }
      DoubtSteps(c, id, Now(), worker, false);
      TryDraftFailed(InDoubtDraft, InDoubtLetter);
      ok := QueueInDoubtLetter();
      return ok, !ok;
    }

    method FailInDoubt() returns (ok: bool)
      requires Valid() && worker.pc == InDoubtJob
      modifies this`status, this`updatedAt, this`worker, this`steps
      ensures Valid() && worker == At(old(worker), if ok then InDoubtMessage else CatchJob(false))
      ensures ok == turn(InDoubtJob).Works?
      ensures ok ==> status == Failed
    {
      hide Exhausted, CatchWrite, Branch, AdvanceRead, AdvanceSend, AdvanceHook;
      ghost var before := Now();
      ok := turn(InDoubtJob).Works?;
      if ok {
        status, updatedAt := Failed, clock;
      }
      Over(before);
    }

    method QueueInDoubtLetter() returns (ok: bool)
      requires Valid() && worker.pc == InDoubtLetter
      modifies this`worker, this`steps
      ensures Valid() && worker == At(old(worker), if ok then Stopped else CatchJob(false))
      ensures ok == turn(InDoubtLetter).Works?
    {
      hide Exhausted, CatchWrite, Branch, AdvanceRead, AdvanceSend, AdvanceHook;
      ok := turn(InDoubtLetter).Works?;
      Over(Now());
    }

    /** After a claim: re-read, send, and record the acceptance. */
    method SendClaimed(claimedJob: JobRow) returns (acked: bool, caught: Option<bool>, job: JobRow)
      requires Valid() && worker.pc == ConfirmClaim && worker.job == Some(claimedJob) && !Claimable(status)
      modifies this`messageMark, this`messageProvider, this`draftMark, this`status, this`updatedAt
      modifies this`holder, this`accepted, this`worker, this`steps
      ensures Valid() && worker.job == Some(job)
      ensures claimedJob.retryCount == retryCount ==> job.retryCount == retryCount
      ensures worker.pc == if caught.Some? then CatchJob(caught.value) else Stopped
      ensures acked ==> !Claimable(status)
      ensures (acked, caught) == Tried(FirstBad([ConfirmClaim] + [Reread] + [Send] + RECORDING, turn), turn)
    {
      hide Valid, FirstBad, Advance, Throw;
      AfterClaim(turn);
      var ok := ConfirmOutboundClaim();
      if !ok {
        return false, Some(false), claimedJob;
      }
      ok, job := ReadOutboundJob(Reread);
      if !ok {
        return false, Some(false), claimedJob;
      }
      acked, caught := SendDraft();
    }

    /** The read that tells the claim statement's result. */
    method ConfirmOutboundClaim() returns (ok: bool)
      requires Valid() && worker.pc == ConfirmClaim
      modifies this`worker, this`steps
      ensures Valid() && ok == turn(ConfirmClaim).Works?
      ensures worker == At(old(worker), if ok then Reread else CatchJob(false))
    {
      hide Exhausted, CatchWrite, Branch, AdvanceRead, AdvanceRecovery, AdvanceHook;
      ok := turn(ConfirmClaim).Works?;
      Over(Now());
    }

    method SendDraft() returns (acked: bool, caught: Option<bool>)
      requires Valid() && worker.pc == Send && !Claimable(status)
      modifies this`messageMark, this`messageProvider, this`draftMark, this`status, this`updatedAt
      modifies this`holder, this`accepted, this`worker, this`steps
      ensures Valid() && worker.job == old(worker.job)
      ensures worker.pc == if caught.Some? then CatchJob(caught.value) else Stopped
      ensures acked ==> !Claimable(status)
      ensures (acked, caught) == Tried(FirstBad([Send] + RECORDING, turn), turn)
    {
      hide Valid, FirstBad, Advance, Throw;
      FirstBadOfSum([Send], RECORDING, turn);
      FirstBadOfOne(Send, turn);
      var ok := HandToProvider();
      if !ok {
        return false, Some(turn(Send) == Fails(true));
      }
      var again;
      acked, again := RecordSent();
      caught := if again then Some(false) else None;
    }

    /** The send itself; once it returns, the claim is over and the acceptance counts. */
    method HandToProvider() returns (ok: bool)
      requires Valid() && worker.pc == Send
      modifies this`holder, this`accepted, this`worker, this`steps
      ensures Valid() && ok == turn(Send).Works? && accepted == old(accepted) + if ok then 1 else 0
      ensures worker == At(old(worker), if ok then FinishJob else CatchJob(turn(Send) == Fails(true)))
    {
      hide Exhausted, CatchWrite, Branch, AdvanceRead, AdvanceRecovery, AdvanceHook;
      ghost var before := Now();
      ok := turn(Send).Works?;
      if ok {
        holder := if holder == Some(id) then None else holder;
        accepted := accepted + 1;
      }
      Over(before);
    }

    method RecordSent() returns (acked: bool, caught: bool)
      requires Valid() && worker.pc == FinishJob && !Claimable(status)
      modifies this`messageMark, this`messageProvider, this`draftMark, this`status, this`updatedAt
      modifies this`worker, this`steps
      ensures Valid() && worker.job == old(worker.job) && !Claimable(status)
      ensures worker.pc == if caught then CatchJob(false) else Stopped
      ensures (acked, if caught then Some(false) else None) == Tried(FirstBad(RECORDING, turn), turn)
    {
      hide Advance, Throw, Turned, Solo, Valid, WithDraft, WithStatus, FirstBad, Tried;
      RecordingPath(turn);
      FinishSteps(c, id, Now(), worker);
      var ok := UpdateOutboundJobStatus(FinishJob, Sent, FinishMessage);
      if !ok {
        StaysRecorded(FinishJob, turn);
        return turn(FinishJob) != FailsTwice, turn(FinishJob) == FailsTwice;
      }
      acked, caught := RecordMessageSent();
    }

    method RecordMessageSent() returns (acked: bool, caught: bool)
      requires Valid() && worker.pc == FinishMessage
      modifies this`messageMark, this`messageProvider, this`draftMark, this`worker, this`steps
      ensures Valid() && worker.job == old(worker.job)
      ensures worker.pc == if caught then CatchJob(false) else Stopped
      ensures (acked, if caught then Some(false) else None)
              == Tried(FirstBad([FinishMessage, FinishDraft, Settle], turn), turn)
    {
      hide Advance, Throw, Turned, Solo, Valid, WithDraft, WithStatus, FirstBad, Tried;
      FirstBadOfThree(FinishMessage, FinishDraft, Settle, turn);
      var ok := MarkMessageSent();
      if !ok {
        StaysRecorded(FinishMessage, turn);
        return turn(FinishMessage) != FailsTwice, turn(FinishMessage) == FailsTwice;
      }
      FinishSteps(c, id, Now(), worker);
      ok := MarkDraftStatus(FinishDraft, Done, Settle);
      if !ok {
        StaysRecorded(FinishDraft, turn);
        return turn(FinishDraft) != FailsTwice, turn(FinishDraft) == FailsTwice;
      }
      FinishSteps(c, id, Now(), worker);
      ok := Elsewhere(Settle, Stopped);
      if !ok {
        GoesBack(Settle, turn);
      }
      AllWork(turn);
      return ok, turn(Settle) == FailsTwice;
    }

    method MarkMessageSent() returns (ok: bool)
      requires Valid() && worker.pc == FinishMessage
      modifies this`messageMark, this`messageProvider, this`worker, this`steps
      ensures Guarded(old(worker), FinishMessage, ok, FinishDraft)
    {
      hide CatchWrite, Exhausted, Branch, AdvanceRead, AdvanceRecovery, AdvanceHook;
      ghost var before := Now();
      ok := turn(FinishMessage).Works?;
      if ok {
        messageMark, messageProvider := Done, true;
      }
      Over(before);
    }

    /** The status write of the catch block, if it works; either way the claim is over. */
    method StoreCaught(next: JobRow, works: bool)
      modifies this`status, this`retryCount, this`updatedAt, this`holder
      ensures Now() == Released(if works then old(Now()).(job := next) else old(Now()), id)
    {
      if works {
        status, retryCount, updatedAt := next.status, next.retryCount, next.updatedAt;
      }
      holder := if holder == Some(id) then None else holder;
    }

    method WriteCaught(job: Option<JobRow>, policy: bool) returns (exhausted: bool)
      requires Valid() && worker.pc == CatchJob(policy) && worker.job == job && (policy ==> job.Some?)
      modifies this`status, this`retryCount, this`updatedAt, this`holder, this`worker, this`steps
      ensures Valid() && worker == At(old(worker), if exhausted then CatchMessage else Stopped)
      ensures exhausted && turn(CatchJob(policy)).Works? ==> status == Failed
      ensures exhausted == (policy || (job.Some? && job.value.retryCount + 1 > c.maxRetries))
    {
      hide Advance, Throw, Turned;
      ghost var before := Now();
      CatchTurn(c, id, before, worker, turn);
      exhausted := policy || (job.Some? && job.value.retryCount + 1 > c.maxRetries);
      var next := JobRow(if exhausted then Failed else Retry,
                         if job.Some? then job.value.retryCount + 1 else retryCount, clock);
      assert exhausted == Exhausted(c, worker, policy);
      assert CatchWrite(c, before, worker, policy) == before.(job := next);
      hide *;
      StoreCaught(next, turn(CatchJob(policy)).Works?);
      Over(before);
    }

    /** The catch block. `job` is what the handler last read, if anything. */
    method CatchError(job: Option<JobRow>, policy: bool) returns (acked: bool)
      requires Valid() && worker.pc == CatchJob(policy) && worker.job == job && (policy ==> job.Some?)
      modifies this`messageMark, this`draftMark, this`status, this`retryCount, this`updatedAt
      modifies this`holder, this`worker, this`steps
      ensures Valid() && worker.pc == Stopped
      ensures acked && turn(CatchJob(policy)).Works? ==> status == Failed
      ensures acked == (letter && (policy || (job.Some? && job.value.retryCount + 1 > c.maxRetries)))
    {
      hide Advance, Throw, Turned, Solo, Valid, WithDraft, WithMessage, WithStatus;
      var exhausted := WriteCaught(job, policy);
      if exhausted {
        AbandonMessage();
      }
      acked := letter && exhausted;
    }

    /** Message and draft are marked as failed, each if its write works. */
    method AbandonMessage()
      requires Valid() && worker.pc == CatchMessage
      modifies this`messageMark, this`draftMark, this`worker, this`steps
      ensures Valid() && worker.pc == Stopped
    {
      hide Advance, Throw, Turned, Solo, Valid, WithDraft, WithMessage;
      forall any ensures Throw(c, id, Now(), worker, any) == (Now(), At(worker, CatchDraft)) {
        AbandonSteps(c, id, Now(), worker, any);
      }
      AbandonSteps(c, id, Now(), worker, false);
      TryMessageFailed(CatchMessage, CatchDraft);
      forall any ensures Throw(c, id, Now(), worker, any) == (Now(), At(worker, Stopped)) {
        AbandonSteps(c, id, Now(), worker, any);
      }
      AbandonSteps(c, id, Now(), worker, false);
      TryDraftFailed(CatchDraft, Stopped);
    }

    method ClaimOutboundJob() returns (ok: bool, claimed: bool)
      requires Valid() && worker.pc == Claim
      modifies this`status, this`updatedAt, this`holder, this`claims, this`worker, this`steps
      ensures Valid() && ok == turn(Claim).Works?
      ensures worker == At(old(worker), if !ok then CatchJob(false) else if claimed then ConfirmClaim else Stopped)
      ensures ok && !claimed ==> status == old(status)
      ensures ok ==> claimed == Claimable(old(status)) && !Claimable(status)
    {
      hide CatchWrite, Exhausted, Branch, AdvanceRead, AdvanceRecovery, AdvanceHook;
      ghost var before := Now();
      ok := turn(Claim).Works?;
      claimed := ok && (status == Queued || status == Retry);
      if claimed {
        status, updatedAt := Sending, clock;
        holder, claims := Some(id), claims + 1;
      }
      Over(before);
    }

    // ----- one queue message -----

    /** A job that is neither sent nor in flight: whoever gets the claim sends. */
    method ClaimAndSend(read: JobRow) returns (acked: bool, caught: Option<bool>, job: JobRow)
      requires Valid() && worker.pc == Claim && worker.job == Some(read) && read == Now().job
      modifies this`messageMark, this`messageProvider, this`draftMark, this`status, this`updatedAt
      modifies this`holder, this`claims, this`accepted, this`worker, this`steps
      ensures Valid() && worker.job == Some(job) && job.retryCount == read.retryCount
      ensures worker.pc == if caught.Some? then CatchJob(caught.value) else Stopped
      ensures acked ==> !Claimable(status)
      ensures (acked, caught)
              == Tried(FirstBad(if Claimable(old(status)) then SENDING + RECORDING else [Claim], turn), turn)
    {
      hide Valid, Advance, Throw, FirstBad, Branch;
      ClaimComesFirst(turn);
      var ok, claimed := ClaimOutboundJob();
      if !ok {
        return false, Some(false), read;
      }
      if !claimed {
        return true, None, read;
      }
      acked, caught, job := SendClaimed(read);
    }

    /** The body of the try block after the reads. */
    method Dispatch(read: JobRow, message: MessageRow, draft: Mark, outcome: Outcome)
      returns (acked: bool, caught: Option<bool>, job: JobRow)
      requires Valid() && worker.job == Some(read) && worker.message == message && worker.draft == draft
      requires read == Now().job && message == Now().message && outcome == TerminalDeliveryOutcome(Now())
      requires worker.pc == Branch(c, At(worker, ReadEvents), outcome, clock)
      modifies this
      ensures Valid() && worker.job == Some(job) && origin == old(origin)
      ensures worker.pc == if caught.Some? then CatchJob(caught.value) else Stopped
      ensures acked ==> read.status == Sent || !Claimable(status)
      ensures job.retryCount == read.retryCount
      ensures var tried := Tried(FirstBad(Path(c, old(Now())), turn), turn);
              (acked, caught) == (tried.0 && !Young(c, old(Now())), tried.1)
    {
      hide Valid, Advance, Throw, FirstBad;
      var again := false;
      job := read;
      if read.status == Sent {
        acked, again := FinishSent(message, draft);
      } else if read.status == Sending {
        if message.provider || message.mark == Done || outcome == OutcomeSent {
          acked, again := RecoverSending();
        } else if message.mark == Broken || outcome == OutcomeFailed {
          acked, again := RejectSending();
        } else if clock - read.updatedAt < c.grace {
          acked := false;
          NoPath(turn);
        } else {
          acked, again := GiveUp();
        }
      } else {
        acked, caught, job := ClaimAndSend(read);
        return;
      }
      caught := if again then Some(false) else None;
    }

    /** The try block; `job` is what the catch block will know. */
    method TrySend() returns (acked: bool, caught: Option<bool>, job: Option<JobRow>)
      requires Valid() && worker == FRESH && steps == 0
      modifies this
      ensures Valid() && worker.job == job && origin == old(origin)
      ensures worker.pc == if caught.Some? then CatchJob(caught.value) else Stopped
      ensures acked ==> old(status) == Sent || !Claimable(status)
      ensures var bad := FirstBad(OPENING + Path(c, old(Now())), turn); var tried := Tried(bad, turn);
              (acked, caught) == (tried.0 && !Young(c, old(Now())), tried.1) && (job.None? <==> bad == Some(ReadJob))
              && (job.Some? ==> job.value.retryCount == old(retryCount))
    {
      hide Valid, Advance, Throw, Turned, Branch, FirstBad, Path, Tried, Young;
      ReadsGoToCatch(turn);
      FirstBadOfSum(OPENING, Path(c, Now()), turn);
      FirstBadOfFour(ReadJob, ReadDraft, ReadMessage, ReadEvents, turn);
      LaterOnPath(c, Now(), turn);
      var ok, read := ReadOutboundJob(ReadJob);
      if !ok {
        return false, Some(false), None;
      }
      var draft;
      ok, draft := ReadDraftStatus();
      if !ok {
        return false, Some(false), Some(read);
      }
      var message;
      ok, message := ReadOutboundMessage();
      if !ok {
        return false, Some(false), Some(read);
      }
      var outcome;
      ok, outcome := ListDeliveryEvents();
      if !ok {
        return false, Some(false), Some(read);
      }
      var last;
      acked, caught, last := Dispatch(read, message, draft, outcome);
      job := Some(last);
    }

    /** One queue message from its delivery to `ack` or `retry`. The rows go through the steps of one handler
        of the protocol, to its end. It is told exactly when a message is acknowledged; and it is only when the job is
        no longer open, unless the status write of the catch block itself failed. */
    method HandleOutboundSend() returns (acked: bool)
      requires origin == Now() && worker == FRESH && steps == 0
      modifies this
      ensures Solo(c, id, old(Now()), FRESH, turn, steps) == (Now(), worker) && worker.pc == Stopped
      ensures (forall pc :: turn(pc).Works?) && old(holder) == None ==> Handled(c, old(Now()), Now())
      ensures acked == Acknowledges(c, old(Now()), turn, letter)
      ensures acked && turn(CatchJob(false)).Works? && turn(CatchJob(true)).Works?
              ==> old(status) == Sent || !Claimable(status)
    {
      hide Turned, Path, FirstBad, Young, Handled;
      var caught, job;
      acked, caught, job := TrySend();
      if caught.Some? {
        acked := CatchError(job, caught.value);
      }
      if (forall pc :: turn(pc).Works?) && old(holder) == None {
        EndIsHandled(c, id, old(Now()), turn, steps, 12);
      }
    }
  }
}
