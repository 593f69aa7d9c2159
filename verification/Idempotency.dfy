/** Sending with an idempotency key: any number of requests under one key run side by side and may die or see
    exceptions at every await. One row for the key, the draft the key is about, and the visible jobs of that draft. */
module Idempotency {
  import opened Enqueue
  import opened Text

  /** `resource` is the draft, once it is stored with the key. */
  datatype Record = Record(fingerprint: nat, completed: bool, resource: bool)

  /** A job is named after the request that inserts it. The last five fields are history: the jobs handed to the
      queue, the request that holds the key before a draft is created, the request that has claimed the draft, how
      many drafts were created, and how many of them their request gave up together with the key. */
  datatype Store = Store(
    record: Option<Record>, draft: Option<DraftStatus>, jobs: set<nat>,
    queued: set<nat>, owner: Option<nat>, claimant: Option<nat>, created: nat, orphans: nat)

  const EMPTY := Store(None, None, {}, {}, None, None, 0, 0)

  datatype Pc =
    | ReadKey | InsertKey | RereadKey
    | Validate | InsertDraft | ReadBack | ReleaseKey | BindDraft
    | ValidateReplay | FindDraft | FindJob(status: DraftStatus)
    | EnqueueLoad | EnqueueClaim(prior: DraftStatus) | EnqueueJob(prior: DraftStatus) | EnqueueSend(prior: DraftStatus)
    | UndoJob(prior: DraftStatus) | UndoMessage(prior: DraftStatus) | UndoDraft(prior: DraftStatus)
    | Complete | Done

  datatype Request = Request(pc: Pc, fingerprint: nat)

  function To(q: Request, pc: Pc): Request {
    q.(pc := pc)
  }

  /** What `reserveIdempotencyKey` makes of a record it finds, and where the request goes from there. A completed
      record carries its response. */
  function Branch(q: Request, record: Record): Pc {
    if record.fingerprint != q.fingerprint then Done
    else if record.completed then Done
    else if record.resource then ValidateReplay
    else Done
  }

  /** Operations on the row of the key alone. */
  predicate OnKey(pc: Pc) {
    pc.ReadKey? || pc.InsertKey? || pc.RereadKey? || pc.BindDraft? || pc.Complete?
  }

  function AdvanceKey(id: nat, s: Store, q: Request): (Store, Request) {
    match q.pc
    case ReadKey => (s, To(q, if s.record.Some? then Branch(q, s.record.value) else InsertKey))
    case InsertKey =>
      if s.record.Some? then (s, To(q, RereadKey))
      else (s.(record := Some(Record(q.fingerprint, false, false)), owner := Some(id)), To(q, Validate))
    case RereadKey => (s, To(q, if s.record.Some? then Branch(q, s.record.value) else Done))
    case BindDraft =>
      if s.record.Some? && !s.record.value.completed then
        (s.(record := Some(s.record.value.(resource := true))), To(q, EnqueueLoad))
      else (s, To(q, Done))
    case Complete =>
      (if s.record.Some? && !s.record.value.completed then
         s.(record := Some(s.record.value.(completed := true, resource := true)))
       else s, To(q, Done))
    case _ => (s, q)
  }

  /** With the key held: validation, the insert of the draft, the reads that confirm it, and the way back. */
  predicate OwnsKey(pc: Pc) {
    pc.Validate? || pc.InsertDraft? || pc.ReadBack? || pc.ReleaseKey?
  }

  function AdvanceDraft(id: nat, s: Store, q: Request): (Store, Request) {
    match q.pc
    case Validate => (s, To(q, InsertDraft))
    case InsertDraft => (s.(draft := Some(Editable), created := s.created + 1), To(q, ReadBack))
    case ReadBack => (s.(owner := None), To(q, BindDraft))
    case ReleaseKey =>
      (s.(record := if s.record.Some? && !s.record.value.completed then None else s.record, owner := None), To(q, Done))
    case _ => (s, q)
  }

  /** The replay of a stored draft, and the claim that `enqueueDraftSend` begins with. */
  function AdvanceReplay(id: nat, s: Store, q: Request): (Store, Request) {
    match q.pc
    case ValidateReplay => (s, To(q, FindDraft))
    case FindDraft => (s, To(q, if s.draft.Some? then FindJob(s.draft.value) else Done))
    case FindJob(status) =>
      (s, To(q, if s.jobs != {} then Complete else if Sendable(status) then EnqueueLoad else Done))
    case EnqueueLoad =>
      (s, To(q, if s.draft.Some? && Sendable(s.draft.value) then EnqueueClaim(s.draft.value) else Done))
    case EnqueueClaim(prior) =>
      if s.draft.Some? && Sendable(s.draft.value) then
        (s.(draft := Some(InQueue), claimant := Some(id)), To(q, EnqueueJob(prior)))
      else (s, To(q, Done))
    case _ => (s, q)
  }

  /** The rest of the enqueue, with its compensation. A job is visible while both its row and its message are there. */
  function AdvanceEnqueue(id: nat, s: Store, q: Request): (Store, Request) {
    match q.pc
    case EnqueueJob(prior) =>
      if s.jobs == {} then (s.(jobs := {id}), To(q, EnqueueSend(prior))) else (s, To(q, UndoJob(prior)))
    case EnqueueSend(_) => (s.(queued := s.queued + {id}, claimant := None), To(q, Complete))
    case UndoJob(prior) => (s.(jobs := s.jobs - {id}), To(q, UndoMessage(prior)))
    case UndoMessage(prior) => (s.(jobs := s.jobs - {id}), To(q, UndoDraft(prior)))
    case UndoDraft(prior) =>
      (s.(draft := if s.draft.Some? then Some(prior) else None, claimant := None), To(q, Done))
    case _ => (s, q)
  }

  /** The next operation of request `id` takes effect. */
  function Advance(id: nat, s: Store, q: Request): (Store, Request) {
    if OnKey(q.pc) then AdvanceKey(id, s, q)
    else if OwnsKey(q.pc) then AdvanceDraft(id, s, q)
    else if HoldsDraft(q.pc) then AdvanceEnqueue(id, s, q)
    else AdvanceReplay(id, s, q)
  }

  /** The next operation throws without effect. Until `createDraft` has returned the key is released, also when the
      draft is already there; inside the enqueue the compensation runs (its own exceptions are swallowed); otherwise
      the request just ends. */
  function Throw(id: nat, s: Store, q: Request): (Store, Request) {
    match q.pc
    case Validate => (s, To(q, ReleaseKey))
    case InsertDraft => (s, To(q, ReleaseKey))
    case ReadBack => (s.(draft := None, orphans := s.orphans + 1), To(q, ReleaseKey))
    case EnqueueJob(prior) => (s, To(q, UndoJob(prior)))
    case EnqueueSend(prior) => (s, To(q, UndoJob(prior)))
    case UndoJob(prior) => (s, To(q, UndoMessage(prior)))
    case UndoMessage(prior) => (s, To(q, UndoDraft(prior)))
    case _ => Gone(id, s, q)
  }

  /** The queue takes the message, and the call that hands it over throws. */
  function ThrowLate(id: nat, s: Store, q: Request): (Store, Request) {
    if q.pc.EnqueueSend? then (s.(queued := s.queued + {id}), To(q, UndoJob(q.pc.prior))) else Throw(id, s, q)
  }

  /** The request ends or dies where it is. */
  function Gone(id: nat, s: Store, q: Request): (Store, Request) {
    (s.(owner := if s.owner == Some(id) then None else s.owner,
        claimant := if s.claimant == Some(id) then None else s.claimant),
     To(q, Done))
  }

  // ----- runs -----

  datatype State = State(store: Store, requests: map<nat, Request>)

  /** `Outcome` is the sender's later word on a draft whose job it was handed. Any other operation that takes effect
      and then throws is a step followed by an exception or a death. */
  datatype Action =
    | Arrive(id: nat, fingerprint: nat)
    | Step(id: nat)
    | Throws(id: nat)
    | ThrowsLate(id: nat)
    | Dies(id: nat)
    | Outcome(sent: bool)

  function Put(s: State, id: nat, r: (Store, Request)): State {
    State(r.0, s.requests[id := r.1])
  }

  function Apply(s: State, a: Action): State {
    match a
    case Arrive(id, f) => if id in s.requests then s else s.(requests := s.requests[id := Request(ReadKey, f)])
    case Step(id) => if id in s.requests then Put(s, id, Advance(id, s.store, s.requests[id])) else s
    case Throws(id) => if id in s.requests then Put(s, id, Throw(id, s.store, s.requests[id])) else s
    case ThrowsLate(id) => if id in s.requests then Put(s, id, ThrowLate(id, s.store, s.requests[id])) else s
    case Dies(id) => if id in s.requests then Put(s, id, Gone(id, s.store, s.requests[id])) else s
    case Outcome(sent) =>
      if s.store.queued * s.store.jobs != {} && s.store.draft == Some(InQueue) then
        s.(store := s.store.(draft := Some(if sent then Sent else Failed)))
      else s
  }

  function Run(s: State, actions: seq<Action>): State
    decreases |actions|
  {
    if actions == [] then s else Run(Apply(s, actions[0]), actions[1..])
  }

  predicate Initial(s: State) {
    s == State(EMPTY, map[])
  }

  /** The exceptions that matter: between the insert of a draft and the return of `createDraft`, and in the hand-over
      to the queue after it took effect. */
  datatype Fault = AfterInsert | LateSend

  function FaultsAt(s: State, a: Action): set<Fault> {
    if (a.Throws? || a.ThrowsLate?) && a.id in s.requests then
      var pc := s.requests[a.id].pc;
      if pc.ReadBack? then {AfterInsert} else if a.ThrowsLate? && pc.EnqueueSend? then {LateSend} else {}
    else {}
  }

  function Faults(s: State, actions: seq<Action>): set<Fault>
    decreases |actions|
  {
    if actions == [] then {} else FaultsAt(s, actions[0]) + Faults(Apply(s, actions[0]), actions[1..])
  }

  // ----- what every run keeps -----

  /** Before a draft is created the key has at most one owner and nothing else is there; no draft outlives its record
      unless it was given up with it; the draft has at most one job. */
  predicate StoreInv(s: Store) {
    && s.created == s.orphans + (if s.draft.Some? then 1 else 0)
    && (s.owner.Some? ==> s.record.Some? && !s.record.value.completed && !s.record.value.resource)
    && (s.owner.Some? || s.draft.None? ==> s.jobs == {} && s.queued == {} && s.claimant == None)
    && (s.record.None? ==> s.draft == None)
    && (s.record.Some? && (s.record.value.resource || s.record.value.completed) ==> s.draft.Some?)
    && (s.claimant.Some? ==> !Sendable(s.draft.value))
    && Few(s.jobs)
  }

  predicate Few(s: set<nat>) {
    |s| <= 1
  }

  /** Operations on behalf of the draft. */
  predicate OnDraft(pc: Pc) {
    pc.BindDraft? || pc.ValidateReplay? || pc.FindDraft? || pc.FindJob? || pc.EnqueueLoad? || pc.EnqueueClaim?
    || HoldsDraft(pc) || pc.Complete?
  }

  predicate HoldsDraft(pc: Pc) {
    pc.EnqueueJob? || pc.EnqueueSend? || pc.UndoJob? || pc.UndoMessage? || pc.UndoDraft?
  }

  /** Where a request can be once it has inserted a job. */
  predicate AfterJob(pc: Pc) {
    pc.EnqueueSend? || pc.UndoJob? || pc.UndoMessage? || pc.UndoDraft? || pc.Complete? || pc.Done?
  }

  function Prior(pc: Pc): DraftStatus {
    if pc.EnqueueClaim? || HoldsDraft(pc) then pc.prior else Editable
  }

  predicate RequestInv(s: Store, id: nat, q: Request) {
    && (OwnsKey(q.pc) <==> s.owner == Some(id))
    && (OwnsKey(q.pc) ==> s.draft == if q.pc.ReadBack? then Some(Editable) else None)
    && (HoldsDraft(q.pc) <==> s.claimant == Some(id))
    && (OwnsKey(q.pc) || OnDraft(q.pc) ==> s.record.Some? && s.record.value.fingerprint == q.fingerprint)
    && (OnDraft(q.pc) ==> s.draft.Some? && s.owner == None)
    && (q.pc.EnqueueSend? ==> s.jobs == {id})
    && (id in s.jobs || id in s.queued ==> AfterJob(q.pc))
    && Sendable(Prior(q.pc))
  }

  ghost predicate Inv(s: State) {
    && StoreInv(s.store)
    && (forall id :: id in s.requests ==> RequestInv(s.store, id, s.requests[id]))
    && (s.store.owner.Some? ==> s.store.owner.value in s.requests)
    && (s.store.claimant.Some? ==> s.store.claimant.value in s.requests)
    && s.store.queued + s.store.jobs <= s.requests.Keys
  }

  /** A hand-over of the key or of the draft is between nobody and `id`. */
  predicate Moves(id: nat, a: Option<nat>, b: Option<nat>) {
    b == a || (a == Some(id) && b == None) || (a == None && b == Some(id))
  }

  /** What a step of `id` owes to the other requests. */
  predicate Kept(id: nat, s: Store, r: (Store, Request)) {
    && StoreInv(r.0) && RequestInv(r.0, id, r.1)
    && Moves(id, s.owner, r.0.owner) && Moves(id, s.claimant, r.0.claimant)
    && (s.owner != Some(id) ==>
          (s.record.Some? ==> r.0.record.Some? && r.0.record.value.fingerprint == s.record.value.fingerprint)
          && (s.draft.Some? ==> r.0.draft.Some?)
          && (s.record.Some? ==> r.0.owner == s.owner && (s.owner.Some? ==> r.0.draft == s.draft)))
    && (s.claimant.Some? && s.claimant != Some(id) ==> r.0.jobs == s.jobs)
    && r.0.queued <= s.queued + {id} && r.0.jobs <= s.jobs + {id}
  }

  lemma AdvanceKeyKeeps(id: nat, s: Store, q: Request)
    requires OnKey(q.pc) && StoreInv(s) && RequestInv(s, id, q)
    ensures Kept(id, s, AdvanceKey(id, s, q))
  {
    hide Few;
  }

  lemma AdvanceDraftKeeps(id: nat, s: Store, q: Request)
    requires OwnsKey(q.pc) && StoreInv(s) && RequestInv(s, id, q)
    ensures Kept(id, s, AdvanceDraft(id, s, q))
  {
    hide Few;
  }

  lemma AdvanceReplayKeeps(id: nat, s: Store, q: Request)
    requires !OnKey(q.pc) && !OwnsKey(q.pc) && !HoldsDraft(q.pc) && StoreInv(s) && RequestInv(s, id, q)
    ensures Kept(id, s, AdvanceReplay(id, s, q))
  {
    hide Few;
  }

  lemma HandOverKeeps(id: nat, s: Store, q: Request)
    requires (q.pc.EnqueueJob? || q.pc.EnqueueSend?) && StoreInv(s) && RequestInv(s, id, q)
    ensures Kept(id, s, AdvanceEnqueue(id, s, q))
  {
    FewAreLeft(s.jobs, id);
    hide Few, Sendable;
  }

  lemma UndoKeeps(id: nat, s: Store, q: Request)
    requires (q.pc.UndoJob? || q.pc.UndoMessage? || q.pc.UndoDraft?) && StoreInv(s) && RequestInv(s, id, q)
    ensures Kept(id, s, AdvanceEnqueue(id, s, q))
  {
    FewAreLeft(s.jobs, id);
    hide Few, Sendable;
  }

  lemma AdvanceEnqueueKeeps(id: nat, s: Store, q: Request)
    requires HoldsDraft(q.pc) && StoreInv(s) && RequestInv(s, id, q)
    ensures Kept(id, s, AdvanceEnqueue(id, s, q))
  {
    hide Kept, StoreInv, RequestInv, AdvanceEnqueue;
    if q.pc.EnqueueJob? || q.pc.EnqueueSend? {
      HandOverKeeps(id, s, q);
    } else {
      UndoKeeps(id, s, q);
    }
  }

  lemma FewAreLeft(s: set<nat>, x: nat)
    requires Few(s)
    ensures Few(s - {x}) && Few({x})
  {
    if x in s {
      assert s == s - {x} + {x};
    } else {
      assert s - {x} == s;
    }
  }

  lemma AdvanceKeeps(id: nat, s: Store, q: Request)
    requires StoreInv(s) && RequestInv(s, id, q)
    ensures Kept(id, s, Advance(id, s, q))
  {
    hide Kept, StoreInv, RequestInv, AdvanceKey, AdvanceDraft, AdvanceReplay, AdvanceEnqueue;
    if OnKey(q.pc) {
      AdvanceKeyKeeps(id, s, q);
    } else if OwnsKey(q.pc) {
      AdvanceDraftKeeps(id, s, q);
    } else if HoldsDraft(q.pc) {
      AdvanceEnqueueKeeps(id, s, q);
    } else {
      AdvanceReplayKeeps(id, s, q);
    }
  }

  lemma ThrowKeeps(id: nat, s: Store, q: Request)
    requires StoreInv(s) && RequestInv(s, id, q)
    ensures Kept(id, s, Throw(id, s, q))
  {
    hide Few, Gone;
    GoneKeeps(id, s, q);
  }

  lemma GoneKeeps(id: nat, s: Store, q: Request)
    requires StoreInv(s) && RequestInv(s, id, q)
    ensures Kept(id, s, Gone(id, s, q))
  {
    hide Few;
  }

  lemma ThrowLateKeeps(id: nat, s: Store, q: Request)
    requires StoreInv(s) && RequestInv(s, id, q)
    ensures Kept(id, s, ThrowLate(id, s, q))
  {
    hide Few, Throw;
    if !q.pc.EnqueueSend? {
      ThrowKeeps(id, s, q);
    }
  }

  lemma PutKeeps(s: State, id: nat, r: (Store, Request))
    requires Inv(s) && id in s.requests && Kept(id, s.store, r)
    ensures Inv(Put(s, id, r))
  {
    hide Few;
    forall other | other in s.requests && other != id ensures RequestInv(r.0, other, s.requests[other]) {
      OtherKept(s, id, r, other);
    }
  }

  lemma OtherKept(s: State, id: nat, r: (Store, Request), other: nat)
    requires Inv(s) && id in s.requests && Kept(id, s.store, r) && other in s.requests && other != id
    ensures RequestInv(r.0, other, s.requests[other])
  {
    hide Few;
    assert RequestInv(s.store, other, s.requests[other]);
    assert RequestInv(s.store, id, s.requests[id]);
  }

  lemma StepKeeps(s: State, a: Action)
    requires Inv(s)
    ensures Inv(Apply(s, a))
  {
    hide StoreInv, RequestInv, Kept, Advance, Throw, ThrowLate, Gone, Put;
    match a
    case Arrive(id, f) => ArriveKeeps(s, id, f);
    case Step(id) =>
      if id in s.requests {
        AdvanceKeeps(id, s.store, s.requests[id]);
        PutKeeps(s, id, Advance(id, s.store, s.requests[id]));
      }
    case Throws(id) =>
      if id in s.requests {
        ThrowKeeps(id, s.store, s.requests[id]);
        PutKeeps(s, id, Throw(id, s.store, s.requests[id]));
      }
    case ThrowsLate(id) =>
      if id in s.requests {
        ThrowLateKeeps(id, s.store, s.requests[id]);
        PutKeeps(s, id, ThrowLate(id, s.store, s.requests[id]));
      }
    case Dies(id) =>
      if id in s.requests {
        GoneKeeps(id, s.store, s.requests[id]);
        PutKeeps(s, id, Gone(id, s.store, s.requests[id]));
      }
    case Outcome(sent) => OutcomeKeeps(s, sent);
  }

  lemma ArriveKeeps(s: State, id: nat, f: nat)
    requires Inv(s)
    ensures Inv(Apply(s, Arrive(id, f)))
  {
    hide StoreInv;
    if id !in s.requests {
      assert s.store.owner != Some(id) && s.store.claimant != Some(id);
      assert id !in s.store.queued + s.store.jobs;
    }
  }

  lemma OutcomeKeeps(s: State, sent: bool)
    requires Inv(s)
    ensures Inv(Apply(s, Outcome(sent)))
  {
    hide Few;
  }

  lemma {:induction false} RunKeeps(s: State, actions: seq<Action>)
    requires Inv(s)
    ensures Inv(Run(s, actions))
    decreases |actions|
  {
    hide Inv, Apply;
    if actions != [] {
      StepKeeps(s, actions[0]);
      RunKeeps(Apply(s, actions[0]), actions[1..]);
    }
  }

  lemma InitialInv(s: State)
    requires Initial(s)
    ensures Inv(s)
  {
  }

  // ----- at most one draft, one job, one hand-over -----

  /** The draft the key is about never has more than one visible job, whatever overlaps, throws or dies. */
  lemma AtMostOneJob(s: State, actions: seq<Action>)
    requires Initial(s)
    ensures |Run(s, actions).store.jobs| <= 1
  {
    hide Run, RequestInv;
    InitialInv(s);
    RunKeeps(s, actions);
  }

  lemma OrphansNeedException(s: State, a: Action)
    requires AfterInsert !in FaultsAt(s, a)
    ensures Apply(s, a).store.orphans == s.store.orphans
  {
    hide Branch;
  }

  lemma {:induction false} OrphansNeedExceptions(s: State, actions: seq<Action>)
    requires AfterInsert !in Faults(s, actions)
    ensures Run(s, actions).store.orphans == s.store.orphans
    decreases |actions|
  {
    hide Apply, FaultsAt;
    if actions != [] {
      OrphansNeedException(s, actions[0]);
      OrphansNeedExceptions(Apply(s, actions[0]), actions[1..]);
    }
  }

  /** A job that was handed over stays, and its draft is not open to another enqueue. */
  predicate Tidy(s: Store) {
    s.queued <= s.jobs && (s.queued != {} ==> s.claimant == None && s.draft.Some? && !Sendable(s.draft.value))
  }

  lemma TidyAdvance(id: nat, s: Store, q: Request)
    requires StoreInv(s) && RequestInv(s, id, q) && Tidy(s)
    ensures Tidy(Advance(id, s, q).0)
  {
    hide Few, Branch;
    if HoldsDraft(q.pc) {
      hide AdvanceKey, AdvanceDraft, AdvanceReplay;
    } else {
      hide AdvanceEnqueue;
    }
  }

  lemma TidyStep(s: State, a: Action)
    requires Inv(s) && Tidy(s.store) && LateSend !in FaultsAt(s, a)
    ensures Tidy(Apply(s, a).store)
  {
    hide Few, Advance;
    if !a.Outcome? && a.id in s.requests {
      assert RequestInv(s.store, a.id, s.requests[a.id]);
      if a.Step? {
        TidyAdvance(a.id, s.store, s.requests[a.id]);
      }
    }
  }

  lemma {:induction false} TidyRun(s: State, actions: seq<Action>)
    requires Inv(s) && Tidy(s.store) && LateSend !in Faults(s, actions)
    ensures Tidy(Run(s, actions).store)
    decreases |actions|
  {
    hide Inv, Apply, FaultsAt, Tidy;
    if actions != [] {
      StepKeeps(s, actions[0]);
      TidyStep(s, actions[0]);
      TidyRun(Apply(s, actions[0]), actions[1..]);
    }
  }

  /** At most one draft is created under the key when no exception falls between its insert and the return of
      `createDraft`, and at most one job is handed to the queue when no hand-over throws after it took effect. */
  lemma AtMostOne(s: State, actions: seq<Action>)
    requires Initial(s)
    ensures AfterInsert !in Faults(s, actions) ==> Run(s, actions).store.created <= 1
    ensures LateSend !in Faults(s, actions) ==> |Run(s, actions).store.queued| <= 1
  {
    hide Run, Faults, RequestInv;
    InitialInv(s);
    RunKeeps(s, actions);
    var t := Run(s, actions).store;
    if AfterInsert !in Faults(s, actions) {
      OrphansNeedExceptions(s, actions);
    }
    if LateSend !in Faults(s, actions) {
      TidyRun(s, actions);
      SubsetIsSmaller(t.queued, t.jobs);
    }
  }

  // ----- requests left alone -----

  function AdvanceN(id: nat, s: Store, q: Request, n: nat): (Store, Request)
    decreases n
  {
    if n == 0 then (s, q) else var r := Advance(id, s, q); AdvanceN(id, r.0, r.1, n - 1)
  }

  lemma Next(id: nat, s: Store, q: Request, n: nat)
    requires n > 0
    ensures var r := Advance(id, s, q); AdvanceN(id, s, q, n) == AdvanceN(id, r.0, r.1, n - 1)
  {
  }

  lemma Rest(id: nat, s: Store, q: Request, n: nat)
    requires n == 0 || q.pc == Done
    ensures AdvanceN(id, s, q, n) == (s, q)
    decreases n
  {
    if n > 0 {
      Rest(id, s, q, n - 1);
    }
  }

  lemma {:induction false} RunOfSum(s: State, a: seq<Action>, b: seq<Action>)
    ensures Run(s, a + b) == Run(Run(s, a), b)
    ensures Faults(s, a + b) == Faults(s, a) + Faults(Run(s, a), b)
    decreases |a|
  {
    hide Apply, FaultsAt;
    if a == [] {
      assert a + b == b;
    } else {
      assert (a + b)[0] == a[0] && (a + b)[1..] == a[1..] + b;
      RunOfSum(Apply(s, a[0]), a[1..], b);
    }
  }

  lemma RunOfOne(s: State, a: Action)
    ensures Run(s, [a]) == Apply(s, a) && Faults(s, [a]) == FaultsAt(s, a)
  {
    hide Apply, FaultsAt;
    assert Run(Apply(s, a), []) == Apply(s, a);
  }

  function Steps(id: nat, n: nat): seq<Action> {
    if n == 0 then [] else [Step(id)] + Steps(id, n - 1)
  }

  lemma {:induction false} RunOfSteps(s: State, id: nat, n: nat)
    requires id in s.requests
    ensures Run(s, Steps(id, n)) == Put(s, id, AdvanceN(id, s.store, s.requests[id], n))
    ensures Faults(s, Steps(id, n)) == {}
    decreases n
  {
    hide Advance;
    if n == 0 {
      assert Put(s, id, (s.store, s.requests[id])) == s;
    } else {
      var t := Put(s, id, Advance(id, s.store, s.requests[id]));
      assert Steps(id, n)[1..] == Steps(id, n - 1);
      RunOfSteps(t, id, n - 1);
      assert forall r :: Put(t, id, r) == Put(s, id, r);
    }
  }

  /** A request that arrives and takes `n` steps undisturbed. */
  function Alone(id: nat, f: nat, n: nat): seq<Action> {
    [Arrive(id, f)] + Steps(id, n)
  }

  lemma RunAlone(s: State, id: nat, f: nat, n: nat)
    requires id !in s.requests
    ensures var r := AdvanceN(id, s.store, Request(ReadKey, f), n);
            Run(s, Alone(id, f, n)) == State(r.0, s.requests[id := r.1])
    ensures Faults(s, Alone(id, f, n)) == {}
  {
    hide Run, Faults, Advance, AdvanceN;
    RunOfOne(s, Arrive(id, f));
    RunOfSteps(Apply(s, Arrive(id, f)), id, n);
    RunOfSum(s, [Arrive(id, f)], Steps(id, n));
  }

  /** The first steps for a key that nobody holds, up to the reads that confirm the draft. */
  function Drafted(s: Store, f: nat, id: nat): Store {
    s.(record := Some(Record(f, false, false)), draft := Some(Editable), owner := Some(id), created := s.created + 1)
  }

  lemma DraftIsInserted(id: nat, s: Store, f: nat, n: nat)
    requires s.record == None && n >= 4
    ensures AdvanceN(id, s, Request(ReadKey, f), n) == AdvanceN(id, Drafted(s, f, id), Request(ReadBack, f), n - 4)
  {
    hide AdvanceN;
    var q := Request(ReadKey, f);
    var held := s.(record := Some(Record(f, false, false)), owner := Some(id));
    Next(id, s, q, n);
    Next(id, s, To(q, InsertKey), n - 1);
    Next(id, held, To(q, Validate), n - 2);
    Next(id, held, To(q, InsertDraft), n - 3);
  }

  /** From an editable draft without a job to the hand-over. */
  lemma DraftReachesQueue(id: nat, s: Store, q: Request, n: nat)
    requires n >= 3 && q.pc == EnqueueLoad && s.draft.Some? && Sendable(s.draft.value) && s.jobs == {}
    ensures AdvanceN(id, s, q, n) ==
            AdvanceN(id, s.(draft := Some(InQueue), claimant := Some(id), jobs := {id}),
                     To(q, EnqueueSend(s.draft.value)), n - 3)
  {
    hide AdvanceN;
    var prior := s.draft.value;
    Next(id, s, q, n);
    Next(id, s, To(q, EnqueueClaim(prior)), n - 1);
    Next(id, s.(draft := Some(InQueue), claimant := Some(id)), To(q, EnqueueJob(prior)), n - 2);
  }

  /** From an editable draft without a job to the completed key. */
  lemma DraftIsQueued(id: nat, s: Store, q: Request, n: nat)
    requires n >= 5 && q.pc == EnqueueLoad && s.draft.Some? && Sendable(s.draft.value) && s.jobs == {}
    requires s.record.Some? && !s.record.value.completed
    ensures var r := AdvanceN(id, s, q, n);
            r.1.pc == Done && r.0.created == s.created && r.0.jobs == {id} && r.0.queued == s.queued + {id}
            && r.0.draft == Some(InQueue)
            && r.0.record == Some(s.record.value.(completed := true, resource := true))
  {
    hide AdvanceN;
    DraftReachesQueue(id, s, q, n);
    var stored := s.(draft := Some(InQueue), claimant := Some(id), jobs := {id});
    var sent := stored.(queued := s.queued + {id}, claimant := None);
    Next(id, stored, To(q, EnqueueSend(s.draft.value)), n - 3);
    Next(id, sent, To(q, Complete), n - 4);
    Rest(id, Advance(id, sent, To(q, Complete)).0, To(q, Done), n - 5);
  }

  /** A request for a key that nobody holds, left alone, creates the draft, queues its one job and completes the
      key. */
  lemma FreshKeySends(id: nat, s: Store, f: nat, n: nat)
    requires s == EMPTY && n >= 11
    ensures var r := AdvanceN(id, s, Request(ReadKey, f), n);
            r.1.pc == Done && r.0.created == 1 && r.0.jobs == r.0.queued == {id}
            && r.0.record == Some(Record(f, true, true)) && r.0.draft == Some(InQueue)
  {
    hide AdvanceN;
    DraftIsInserted(id, s, f, n);
    var q := Request(ReadBack, f);
    var drafted := Drafted(s, f, id);
    Next(id, drafted, q, n - 4);
    Next(id, drafted.(owner := None), To(q, BindDraft), n - 5);
    DraftIsQueued(id, drafted.(owner := None, record := Some(Record(f, false, true))), To(q, EnqueueLoad), n - 6);
  }

  /** How a replay begins for a key whose draft is stored and not yet answered for. */
  lemma ReplayFindsDraft(id: nat, s: Store, f: nat, n: nat)
    requires n >= 3 && s.record == Some(Record(f, false, true)) && s.draft.Some?
    ensures AdvanceN(id, s, Request(ReadKey, f), n) == AdvanceN(id, s, Request(FindJob(s.draft.value), f), n - 3)
  {
    hide AdvanceN;
    var q := Request(ReadKey, f);
    Next(id, s, q, n);
    Next(id, s, To(q, ValidateReplay), n - 1);
    Next(id, s, To(q, FindDraft), n - 2);
  }

  /** A request that finds the key completed, in use by a request that has no draft yet, or taken for something else,
      changes nothing, and it ends. */
  lemma TakenKeyIsLeftAlone(id: nat, s: Store, f: nat, n: nat)
    requires n >= 1 && s.record.Some?
    requires s.record.value.fingerprint != f || s.record.value.completed || !s.record.value.resource
    ensures AdvanceN(id, s, Request(ReadKey, f), n) == (s, Request(Done, f))
  {
    hide AdvanceN;
    Next(id, s, Request(ReadKey, f), n);
    Rest(id, s, Request(Done, f), n - 1);
  }

  /** What a request that is left alone makes of a key whose draft is stored and not yet answered for. It creates no
      draft. It hands a job to the queue exactly when there is no job and the draft can still be sent; so after it a
      job has been handed over exactly when one had been before, or that is the case. It completes the key also when
      it merely finds a job, whether or not that job was ever handed over. */
  lemma RetryResumes(id: nat, s: Store, f: nat, n: nat)
    requires n >= 9 && StoreInv(s) && s.record == Some(Record(f, false, true)) && s.claimant == None
    ensures var r := AdvanceN(id, s, Request(ReadKey, f), n); var sends := s.jobs == {} && Sendable(s.draft.value);
            r.1.pc == Done && r.0.created == s.created
            && r.0.queued == s.queued + (if sends then {id} else {})
            && (r.0.queued != {} <==> s.queued != {} || sends)
            && r.0.record.Some? && (r.0.record.value.completed <==> s.jobs != {} || sends)
            && r.0.jobs == (if sends then {id} else s.jobs)
  {
    hide AdvanceN;
    var q := Request(FindJob(s.draft.value), f);
    ReplayFindsDraft(id, s, f, n);
    Next(id, s, q, n - 3);
    if s.jobs != {} {
      Next(id, s, To(q, Complete), n - 4);
      Rest(id, Advance(id, s, To(q, Complete)).0, To(q, Done), n - 5);
    } else if Sendable(s.draft.value) {
      DraftIsQueued(id, s, To(q, EnqueueLoad), n - 4);
    } else {
      Rest(id, s, To(q, Done), n - 4);
    }
  }

  /** A request whose validation or draft creation throws gives the key back; if the draft row is there already, it
      stays behind. */
  lemma FailedRequestReleasesKey(id: nat, s: Store, q: Request)
    requires StoreInv(s) && RequestInv(s, id, q) && (q.pc == Validate || q.pc == InsertDraft || q.pc == ReadBack)
    ensures var thrown := Throw(id, s, q); var r := Advance(id, thrown.0, thrown.1);
            r.1.pc == Done && r.0.record == None && r.0.owner == None && r.0.created == s.created
            && r.0.orphans == s.created
            && (r.0.orphans == s.orphans <==> q.pc != ReadBack)
  {
    hide Few;
  }

  // ----- a second draft, and a second hand-over -----

  lemma SecondDraft() returns (actions: seq<Action>)
    ensures var s := State(EMPTY, map[]);
            Faults(s, actions) == {AfterInsert} && Run(s, actions).store.created == 2
  {
    hide Run, Faults, AdvanceN, Steps;
    var s := State(EMPTY, map[]);
    RunAlone(s, 0, 0, 4);
    DraftIsInserted(0, EMPTY, 0, 4);
    Rest(0, Drafted(EMPTY, 0, 0), Request(ReadBack, 0), 0);
    var s1 := Run(s, Alone(0, 0, 4));
    var s2 := Apply(s1, Throws(0));
    RunOfOne(s1, Throws(0));
    var s3 := Apply(s2, Step(0));
    RunOfOne(s2, Step(0));
    RunAlone(s3, 1, 0, 4);
    DraftIsInserted(1, s3.store, 0, 4);
    Rest(1, Drafted(s3.store, 0, 1), Request(ReadBack, 0), 0);
    RunOfSum(s, Alone(0, 0, 4), [Throws(0)]);
    RunOfSum(s, Alone(0, 0, 4) + [Throws(0)], [Step(0)]);
    RunOfSum(s, Alone(0, 0, 4) + [Throws(0)] + [Step(0)], Alone(1, 0, 4));
    actions := Alone(0, 0, 4) + [Throws(0)] + [Step(0)] + Alone(1, 0, 4);
  }

  /** The store of a first request that stands before the hand-over. */
  function Before(): Store {
    Store(Some(Record(0, false, true)), Some(InQueue), {0}, {}, None, Some(0), 1, 0)
  }

  lemma FirstReachesQueue(n: nat)
    requires n == 9
    ensures AdvanceN(0, EMPTY, Request(ReadKey, 0), n) == (Before(), Request(EnqueueSend(Editable), 0))
  {
    hide AdvanceN;
    DraftIsInserted(0, EMPTY, 0, n);
    var q := Request(ReadBack, 0);
    var drafted := Drafted(EMPTY, 0, 0);
    Next(0, drafted, q, n - 4);
    Next(0, drafted.(owner := None), To(q, BindDraft), n - 5);
    var bound := drafted.(owner := None, record := Some(Record(0, false, true)));
    DraftReachesQueue(0, bound, To(q, EnqueueLoad), n - 6);
    Rest(0, Before(), To(q, EnqueueSend(Editable)), n - 9);
  }

  lemma SecondHandOver() returns (actions: seq<Action>)
    ensures var s := State(EMPTY, map[]);
            Faults(s, actions) == {LateSend} && |Run(s, actions).store.queued| == 2
  {
    hide Run, Faults, AdvanceN, Steps;
    var s := State(EMPTY, map[]);
    var n := 9;
    RunAlone(s, 0, 0, n);
    FirstReachesQueue(n);
    var s1 := Run(s, Alone(0, 0, n));
    var s2 := Apply(s1, ThrowsLate(0));
    RunOfOne(s1, ThrowsLate(0));
    var undone := Before().(queued := {0}, jobs := {}, draft := Some(Editable), claimant := None);
    RunOfSteps(s2, 0, 3);
    UndoGoes(s2.store, s2.requests[0]);
    var s3 := Run(s2, Steps(0, 3));
    assert s3.store == undone;
    RunAlone(s3, 1, 0, n);
    RetryResumes(1, undone, 0, n);
    RunOfSum(s, Alone(0, 0, n), [ThrowsLate(0)]);
    RunOfSum(s, Alone(0, 0, n) + [ThrowsLate(0)], Steps(0, 3));
    RunOfSum(s, Alone(0, 0, n) + [ThrowsLate(0)] + Steps(0, 3), Alone(1, 0, n));
    actions := Alone(0, 0, n) + [ThrowsLate(0)] + Steps(0, 3) + Alone(1, 0, n);
    assert Run(s, actions).store.queued == {0, 1};
  }

  lemma UndoGoes(s: Store, q: Request)
    requires s == Before().(queued := {0}) && q == Request(UndoJob(Editable), 0)
    ensures AdvanceN(0, s, q, 3) ==
            (Before().(queued := {0}, jobs := {}, draft := Some(Editable), claimant := None), To(q, Done))
  {
    hide AdvanceN;
    Next(0, s, q, 3);
    var t := s.(jobs := s.jobs - {0});
    assert t.jobs == {};
    Next(0, t, To(q, UndoMessage(Editable)), 2);
    assert t.jobs - {0} == {};
    Next(0, t, To(q, UndoDraft(Editable)), 1);
    Rest(0, Advance(0, t, To(q, UndoDraft(Editable))).0, To(q, Done), 0);
  }

  ghost predicate AlwaysOneDraft(faults: set<Fault>) {
    forall s, actions :: Initial(s) && Faults(s, actions) <= faults ==> Run(s, actions).store.created <= 1
  }

  ghost predicate AlwaysOneHandOver(faults: set<Fault>) {
    forall s, actions :: Initial(s) && Faults(s, actions) <= faults ==> |Run(s, actions).store.queued| <= 1
  }

  /** Every run creates at most one draft exactly when no exception falls between the insert of a draft and the return
      of `createDraft`; every run hands over at most one job exactly when no hand-over throws after it took effect. */
  lemma OnceExactly(faults: set<Fault>)
    ensures AlwaysOneDraft(faults) <==> AfterInsert !in faults
    ensures AlwaysOneHandOver(faults) <==> LateSend !in faults
  {
    forall s, actions | Initial(s) && Faults(s, actions) <= faults
      ensures AfterInsert !in faults ==> Run(s, actions).store.created <= 1
      ensures LateSend !in faults ==> |Run(s, actions).store.queued| <= 1
    {
      AtMostOne(s, actions);
    }
    var twice := SecondDraft();
    var again := SecondHandOver();
    assert Initial(State(EMPTY, map[]));
  }

  // ----- another fingerprint creates nothing -----

  /** While the key is taken, a request with another fingerprint changes nothing, whatever becomes of it. */
  lemma OtherFingerprintChangesNothing(s: State, a: Action)
    requires Inv(s) && s.store.record.Some? && !a.Arrive? && !a.Outcome? && a.id in s.requests
    requires s.requests[a.id].fingerprint != s.store.record.value.fingerprint
    ensures Apply(s, a).store == s.store
  {
    assert RequestInv(s.store, a.id, s.requests[a.id]);
  }

  // ----- where a retry cannot resume -----

  /** The draft was claimed, and the request that claimed it is gone without having inserted a job. */
  predicate Abandoned(s: Store) {
    s.draft.Some? && !Sendable(s.draft.value) && s.jobs == {} && s.claimant == None
  }

  lemma DeathBeforeJobAbandons(s: State, id: nat)
    requires Inv(s) && id in s.requests && s.requests[id].pc.EnqueueJob? && s.store.jobs == {}
    ensures Abandoned(Apply(s, Dies(id)).store)
  {
    assert RequestInv(s.store, id, s.requests[id]);
  }

  lemma AbandonedStepStays(s: State, a: Action)
    requires Inv(s) && Abandoned(s.store)
    ensures Abandoned(Apply(s, a).store) && Apply(s, a).store.queued == s.store.queued
  {
    if !a.Outcome? && a.id in s.requests {
      assert RequestInv(s.store, a.id, s.requests[a.id]);
    }
  }

  /** A request that dies between the claim of the draft and the insert of the job abandons the key: no later request,
      however often it is repeated, creates a job or hands one over. */
  lemma {:induction false} AbandonedForGood(s: State, actions: seq<Action>)
    requires Inv(s) && Abandoned(s.store)
    ensures Abandoned(Run(s, actions).store) && Run(s, actions).store.queued == s.store.queued
    decreases |actions|
  {
    hide Inv, Apply, Abandoned;
    if actions != [] {
      StepKeeps(s, actions[0]);
      AbandonedStepStays(s, actions[0]);
      AbandonedForGood(Apply(s, actions[0]), actions[1..]);
    }
  }

  /** There is a job that was not handed over, and the request that inserted it is done with it. */
  ghost predicate Stranded(s: State) {
    && s.store.jobs != {} && s.store.queued == {}
    && forall id :: id in s.requests && id in s.store.jobs ==> !HoldsDraft(s.requests[id].pc)
  }

  lemma DeathBeforeSendStrands(s: State, id: nat)
    requires Inv(s) && id in s.requests && s.requests[id].pc.EnqueueSend? && s.store.queued == {}
    ensures Stranded(Apply(s, Dies(id)))
  {
    assert RequestInv(s.store, id, s.requests[id]);
  }

  lemma StrandedStepStays(s: State, a: Action)
    requires Inv(s) && Stranded(s)
    ensures Stranded(Apply(s, a)) && Apply(s, a).store.jobs == s.store.jobs
  {
    hide Few, Branch;
    if !a.Outcome? && a.id in s.requests {
      assert RequestInv(s.store, a.id, s.requests[a.id]);
    }
  }

  /** A request that dies between the insert of the job and its hand-over strands the job: later requests find it and
      complete the key, and none of them, however often repeated, hands a job to the queue. */
  lemma {:induction false} StrandedForGood(s: State, actions: seq<Action>)
    requires Inv(s) && Stranded(s)
    ensures Stranded(Run(s, actions)) && Run(s, actions).store.jobs == s.store.jobs
    decreases |actions|
  {
    hide Inv, Apply, Stranded;
    if actions != [] {
      StepKeeps(s, actions[0]);
      StrandedStepStays(s, actions[0]);
      StrandedForGood(Apply(s, actions[0]), actions[1..]);
    }
  }
}
