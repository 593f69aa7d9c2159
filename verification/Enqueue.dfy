/** Putting a draft into the outbound queue: claim, thread, credits, message, job and queue message, with the
    compensation that runs when any of these throws. */
module Enqueue {
  import opened Billing
  import opened Text

  datatype DraftStatus = Editable | Approved | InQueue | Sent | Failed

  datatype Draft = Draft(status: DraftStatus, threadId: Option<nat>, key: nat)

  /** `visible` is the join of a message with its mailbox and tenant. */
  datatype Message = Message(visible: bool, threadId: Option<nat>)

  datatype OutboundJob = OutboundJob(messageId: nat, draftKey: nat)

  datatype Tables = Tables(
    drafts: map<nat, Draft>, jobs: map<nat, OutboundJob>, messages: map<nat, Message>, threads: set<nat>,
    account: Account)

  /** The places of the program that can throw. */
  datatype Point =
    | LoadDraft | ClaimDraft | ConfirmClaim | CheckPayload | CreateThread | AssignThread | CheckAttachments
    | Reserve | InsertMessage | InsertJob | Reload | SendToQueue

  /** An operation works, throws without effect, or takes effect and then throws. */
  datatype Fault = Works | Early | Late

  datatype Result = Queued(job: nat) | Refused(at: Point)

  /** What the payload, the mailbox and the attachments amount to, and the ids `createId` returns. */
  datatype Order = Order(
    payloadOk: bool, hasSubject: bool, attachmentsOk: bool, cost: nat, jobId: nat, messageId: nat, newThreadId: nat)

  predicate Sendable(status: DraftStatus) {
    status == Editable || status == Approved
  }

  predicate VisibleDraft(t: Tables, id: nat) {
    id in t.drafts && (t.drafts[id].threadId.Some? ==> t.drafts[id].threadId.value in t.threads)
  }

  predicate VisibleJob(t: Tables, job: nat) {
    job in t.jobs && t.jobs[job].messageId in t.messages && t.messages[t.jobs[job].messageId].visible
  }

  /** The visible jobs of a draft. */
  function JobsOf(t: Tables, key: nat): set<nat> {
    set job | job in t.jobs && VisibleJob(t, job) && t.jobs[job].draftKey == key
  }

  /** Nothing knows the new ids yet. */
  predicate FreshIds(t: Tables, o: Order) {
    && o.jobId !in t.jobs && o.messageId !in t.messages && o.newThreadId !in t.threads
    && (forall job :: job in t.jobs ==> t.jobs[job].messageId != o.messageId)
    && (forall d :: d in t.drafts ==> t.drafts[d].threadId != Some(o.newThreadId))
    && (forall m :: m in t.messages ==> t.messages[m].threadId != Some(o.newThreadId))
  }

  /** Where an exception leaves something behind: outside the block that is compensated, or inside an operation
      that changes a row and throws before the program has noted it. */
  predicate Leaks(t: Tables, o: Order, fault: Point -> Fault, at: Point) {
    || (at == ClaimDraft && fault(at) == Late)
    || at == ConfirmClaim
    || (at == CreateThread && fault(at) == Late)
    || (at == Point.Reserve && fault(at) == Late && o.cost > 0 && t.account.available >= o.cost)
  }

  // ----- where a send is refused -----

  predicate NeedsThread(t: Tables, draftId: nat, o: Order)
    requires draftId in t.drafts
  {
    t.drafts[draftId].threadId.None? && o.hasSubject
  }

  function PreparationRefusal(t: Tables, draftId: nat, o: Order, fault: Point -> Fault): Option<Point>
    requires draftId in t.drafts
  {
    if NeedsThread(t, draftId, o) && fault(CreateThread) != Works then Some(CreateThread)
    else if NeedsThread(t, draftId, o) && fault(AssignThread) != Works then Some(AssignThread)
    else None
  }

  function StorageRefusal(t: Tables, key: nat, fault: Point -> Fault): Option<Point> {
    if fault(InsertMessage) != Works then Some(InsertMessage)
    else if fault(InsertJob) != Works || JobsOf(t, key) != {} then Some(InsertJob)
    else if fault(Reload) != Works then Some(Reload)
    else if fault(SendToQueue) != Works then Some(SendToQueue)
    else None
  }

  function ChargeRefusal(t: Tables, key: nat, cost: nat, fault: Point -> Fault): Option<Point> {
    if fault(Point.Reserve) != Works || (cost > 0 && t.account.available < cost) then Some(Point.Reserve)
    else StorageRefusal(t, key, fault)
  }

  function BlockRefusal(t: Tables, draftId: nat, o: Order, fault: Point -> Fault): Option<Point>
    requires draftId in t.drafts
  {
    if fault(CheckPayload) != Works || !o.payloadOk then Some(CheckPayload)
    else if PreparationRefusal(t, draftId, o, fault).Some? then PreparationRefusal(t, draftId, o, fault)
    else if fault(CheckAttachments) != Works || !o.attachmentsOk then Some(CheckAttachments)
    else ChargeRefusal(t, t.drafts[draftId].key, o.cost, fault)
  }

  /** The first place that refuses the send, if any. */
  function Refusal(t: Tables, draftId: nat, o: Order, fault: Point -> Fault): Option<Point> {
    if fault(LoadDraft) != Works || !VisibleDraft(t, draftId) || !Sendable(t.drafts[draftId].status) then
      Some(LoadDraft)
    else if fault(ClaimDraft) != Works then Some(ClaimDraft)
    else if fault(ConfirmClaim) != Works then Some(ConfirmClaim)
    else BlockRefusal(t, draftId, o, fault)
  }

  /** When nothing throws, a draft is queued exactly when it can be seen and sent, its payload and attachments are in
      order, it has no visible job yet, and its cost, if any, is available. */
  lemma QueuedExactlyWhenSound(t: Tables, draftId: nat, o: Order, fault: Point -> Fault)
    requires forall p :: fault(p) == Works
    ensures Refusal(t, draftId, o, fault).None? <==>
            draftId in t.drafts
            && (t.drafts[draftId].status == Editable || t.drafts[draftId].status == Approved)
            && (t.drafts[draftId].threadId.Some? ==> t.drafts[draftId].threadId.value in t.threads)
            && o.payloadOk && o.attachmentsOk && JobsOf(t, t.drafts[draftId].key) == {}
            && (o.cost == 0 || t.account.available >= o.cost)
  {
    hide JobsOf;
  }

  class Mail {
    var drafts: map<nat, Draft>
    var jobs: map<nat, OutboundJob>
    var messages: map<nat, Message>
    var threads: set<nat>
    var queue: seq<nat>
    const billing: TenantBilling

    constructor (billing: TenantBilling)
      ensures this.billing == billing
    {
      this.billing := billing;
      drafts, jobs, messages, threads, queue := map[], map[], map[], {}, [];
    }

    ghost function Value(): Tables
      reads this, billing
    {
      Tables(drafts, jobs, messages, threads, billing.Value())
    }

    /** `UPDATE drafts SET status = 'queued' WHERE status IN ('draft', 'approved')` */
    method ClaimDraftForSend(draftId: nat) returns (claimed: bool)
      requires draftId in drafts
      modifies this`drafts
      ensures claimed == Sendable(old(drafts)[draftId].status)
      ensures drafts == if claimed then old(drafts)[draftId := old(drafts)[draftId].(status := InQueue)]
                        else old(drafts)
    {
      claimed := drafts[draftId].status == Editable || drafts[draftId].status == Approved;
      if claimed {
        drafts := drafts[draftId := drafts[draftId].(status := InQueue)];
      }
    }

    /** The statement takes effect only when the thread to restore still exists. */
    method RestoreDraftSendState(draftId: nat, status: DraftStatus, threadId: Option<nat>)
      requires draftId in drafts
      modifies this`drafts
      ensures drafts == if threadId.None? || threadId.value in threads
                        then old(drafts)[draftId := old(drafts)[draftId].(status := status, threadId := threadId)]
                        else old(drafts)
    {
      if threadId.None? || threadId.value in threads {
        drafts := drafts[draftId := drafts[draftId].(status := status, threadId := threadId)];
      }
    }

    method DeleteThreadIfUnreferenced(threadId: nat)
      modifies this`threads
      ensures threads == if (exists m :: m in messages && messages[m].threadId == Some(threadId) && messages[m].visible)
                            || (exists d :: d in drafts && drafts[d].threadId == Some(threadId))
                         then old(threads) else old(threads) - {threadId}
    {
      var byMessage := exists m | m in messages :: messages[m].threadId == Some(threadId) && messages[m].visible;
      var byDraft := exists d | d in drafts :: drafts[d].threadId == Some(threadId);
      if !byMessage && !byDraft {
        threads := threads - {threadId};
      }
    }

    /** `INSERT ... SELECT ... WHERE NOT EXISTS` a visible job for the draft's payload. */
    method InsertOutboundJob(jobId: nat, job: OutboundJob) returns (inserted: bool)
      modifies this`jobs
      ensures inserted == (JobsOf(old(Value()), job.draftKey) == {})
      ensures jobs == if inserted then old(jobs)[jobId := job] else old(jobs)
    {
      var known := exists j | j in jobs ::
        jobs[j].draftKey == job.draftKey && jobs[j].messageId in messages && messages[jobs[j].messageId].visible;
      inserted := !known;
      assert known <==> JobsOf(Value(), job.draftKey) != {} by {
        if known {
          var j :| j in jobs && jobs[j].draftKey == job.draftKey && jobs[j].messageId in messages
                   && messages[jobs[j].messageId].visible;
          assert j in JobsOf(Value(), job.draftKey);
        }
      }
      if inserted {
        jobs := jobs[jobId := job];
      }
    }

    /** What the steps inside the block have noted so far, for the compensation. */
    ghost predicate Noted(before: Tables, draftId: nat, o: Order, threadNoted: bool, reserved: nat)
      reads this, billing
    {
      && draftId in before.drafts && draftId in drafts
      && threads == before.threads + (if threadNoted then {o.newThreadId} else {})
      && drafts == before.drafts[draftId := drafts[draftId]] && drafts[draftId].key == before.drafts[draftId].key
      && messages - {o.messageId} == before.messages && jobs - {o.jobId} == before.jobs
      && billing.Value() == (if reserved > 0 then before.account.(available := before.account.available - reserved,
                                                                  reserved := before.account.reserved + reserved)
                             else before.account)
    }

    /** The catch block. */
    method Compensate(ghost before: Tables, draftId: nat, o: Order, priorStatus: DraftStatus, priorThread: Option<nat>,
                      createdThread: Option<nat>, creditReservation: nat)
      requires VisibleDraft(before, draftId) && o.jobId !in before.jobs && o.messageId !in before.messages
      requires createdThread.Some? ==> FreshIds(before, o)
      requires priorStatus == before.drafts[draftId].status && priorThread == before.drafts[draftId].threadId
      requires createdThread == None || createdThread == Some(o.newThreadId)
      requires Noted(before, draftId, o, createdThread.Some?, creditReservation) && before.account.reserved >= 0
      modifies this`drafts, this`jobs, this`messages, this`threads, billing
      ensures Value() == before
    {
      jobs := jobs - {o.jobId};
      messages := messages - {o.messageId};
      RestoreDraftSendState(draftId, priorStatus, priorThread);
      assert drafts == before.drafts;
      if createdThread.Some? {
        DeleteThreadIfUnreferenced(createdThread.value);
      }
      if creditReservation > 0 {
        var released := billing.ReleaseTenantReservedCredits(creditReservation);
      }
    }

    /** The thread of the message: the draft's own, or a new one when the subject is not blank. */
    method PrepareThread(ghost before: Tables, draftId: nat, o: Order, fault: Point -> Fault)
      returns (failed: Option<Point>, thread: Option<nat>, created: Option<nat>, ghost base: Tables)
      requires VisibleDraft(before, draftId) && FreshIds(before, o)
      requires Value() == before.(drafts := before.drafts[draftId := before.drafts[draftId].(status := InQueue)])
      modifies this`drafts, this`threads
      ensures VisibleDraft(base, draftId) && Noted(base, draftId, o, created.Some?, 0)
      ensures created == None || (created == Some(o.newThreadId) && base == before)
      ensures failed == PreparationRefusal(before, draftId, o, fault)
      ensures failed.Some? ==> failed.value == CreateThread || failed.value == AssignThread
      ensures base == if failed.Some? then Left(before, draftId, o, fault, failed.value) else before
      ensures failed.None? ==>
                base == before && thread == ThreadFor(before.drafts[draftId], o)
                && Value() == before.(drafts := before.drafts[draftId := before.drafts[draftId].(
                                                                  status := InQueue, threadId := thread)],
                                      threads := before.threads + (if created.Some? then {o.newThreadId} else {}))
                && (created.Some? <==> before.drafts[draftId].threadId.None? && o.hasSubject)
    {
      base, failed, created := before, None, None;
      thread := drafts[draftId].threadId;
      if thread.None? && o.hasSubject {
        if fault(CreateThread) != Works {
          if fault(CreateThread) == Late {
            threads := threads + {o.newThreadId};
            base := before.(threads := threads);
          }
          return Some(CreateThread), thread, None, base;
        }
        threads := threads + {o.newThreadId};
        thread, created := Some(o.newThreadId), Some(o.newThreadId);
        if fault(AssignThread) != Early {
          drafts := drafts[draftId := drafts[draftId].(threadId := thread)];
        }
        if fault(AssignThread) != Works {
          return Some(AssignThread), thread, created, base;
        }
      }
    }

    /** Credits are reserved when the send is chargeable. */
    method ReserveCredits(cost: nat, fault: Point -> Fault) returns (failed: bool, reserved: nat, ghost leaked: bool)
      modifies billing
      ensures leaked == (fault(Point.Reserve) == Late && cost > 0 && old(billing.Value()).available >= cost)
      ensures failed ==> reserved == 0
      ensures !failed ==> reserved == cost && fault(Point.Reserve) == Works
                          && billing.Value() == ReservedIf(old(billing.Value()), cost)
      ensures failed && !leaked ==> billing.Value() == old(billing.Value())
      ensures failed && leaked ==> billing.Value() == ReservedIf(old(billing.Value()), cost)
      ensures !failed ==> !leaked && (cost > 0 ==> old(billing.Value()).available >= cost)
      ensures failed <==> fault(Point.Reserve) != Works || (cost > 0 && old(billing.Value()).available < cost)
    {
      leaked := fault(Point.Reserve) == Late && cost > 0 && billing.available >= cost;
      if fault(Point.Reserve) == Early {
        return true, 0, leaked;
      }
      var ok := true;
      if cost > 0 {
        ok := billing.ReserveTenantAvailableCredits(cost);
      }
      if !ok || fault(Point.Reserve) == Late {
        return true, 0, leaked;
      }
      reserved, failed := cost, false;
    }

    /** The two inserts, the reads that confirm them, and the queue message. */
    method StoreAndSend(ghost base: Tables, draftId: nat, o: Order, thread: Option<nat>, fault: Point -> Fault,
                        ghost threadNoted: bool, ghost reserved: nat)
      returns (failed: Option<Point>)
      requires Noted(base, draftId, o, threadNoted, reserved) && FreshIds(base, o)
      requires messages == base.messages && jobs == base.jobs
      modifies this`messages, this`jobs, this`queue
      ensures Noted(base, draftId, o, threadNoted, reserved)
      ensures queue == old(queue) + (if failed.None? || (failed == Some(SendToQueue) && fault(SendToQueue) == Late)
                                     then [o.jobId] else [])
      ensures failed == StorageRefusal(base, drafts[draftId].key, fault)
      ensures failed.None? ==>
                messages == base.messages[o.messageId := Message(true, thread)]
                && jobs == base.jobs[o.jobId := OutboundJob(o.messageId, drafts[draftId].key)]
                && JobsOf(base, drafts[draftId].key) == {}
    {
      hide JobsOf;
      var key := drafts[draftId].key;
      if fault(InsertMessage) != Early {
        messages := messages[o.messageId := Message(true, thread)];
      }
      if fault(InsertMessage) != Works {
        return Some(InsertMessage);
      }
      if fault(InsertJob) == Early {
        return Some(InsertJob);
      }
      MessageAddsNoJob(base, Value(), o, key, thread);
      var inserted := InsertOutboundJob(o.jobId, OutboundJob(o.messageId, key));
      if !inserted || fault(InsertJob) == Late {
        return Some(InsertJob);
      }
      if fault(Reload) != Works {
        return Some(Reload);
      }
      if fault(SendToQueue) != Early {
        queue := queue + [o.jobId];
      }
      if fault(SendToQueue) != Works {
        return Some(SendToQueue);
      }
      failed := None;
    }

    /** From the reservation on, with the thread in place. */
    method ChargeAndStore(ghost before: Tables, draftId: nat, o: Order, thread: Option<nat>, ghost threadNoted: bool,
                          fault: Point -> Fault)
      returns (failed: Option<Point>, reserved: nat, ghost base: Tables)
      requires VisibleDraft(before, draftId) && FreshIds(before, o) && Noted(before, draftId, o, threadNoted, 0)
      requires messages == before.messages && jobs == before.jobs
      modifies this`messages, this`jobs, this`queue, billing
      ensures base == if failed.Some? then Left(before, draftId, o, fault, failed.value) else before
      ensures Noted(base, draftId, o, threadNoted, reserved) && FreshIds(base, o)
      ensures failed == ChargeRefusal(before, drafts[draftId].key, o.cost, fault)
      ensures failed.Some? ==> failed.value in {Point.Reserve, InsertMessage, InsertJob, Reload, SendToQueue}
      ensures failed.None? ==>
                reserved == o.cost && billing.Value() == ReservedIf(before.account, o.cost)
                && (o.cost > 0 ==> before.account.available >= o.cost)
                && messages == before.messages[o.messageId := Message(true, thread)]
                && jobs == before.jobs[o.jobId := OutboundJob(o.messageId, drafts[draftId].key)]
                && JobsOf(before, drafts[draftId].key) == {}
      ensures queue == old(queue) + (if failed.None? || (failed == Some(SendToQueue) && fault(SendToQueue) == Late)
                                     then [o.jobId] else [])
    {
      base := before;
      var refused; ghost var leaked;
      refused, reserved, leaked := ReserveCredits(o.cost, fault);
      if refused {
        base := if leaked then base.(account := billing.Value()) else base;
        return Some(Point.Reserve), reserved, base;
      }
      failed := StoreAndSend(base, draftId, o, thread, fault, threadNoted, reserved);
    }

    // ----- the whole operation -----

    /** Everything inside the block that is compensated. */
    method TryEnqueue(ghost before: Tables, draftId: nat, o: Order, fault: Point -> Fault)
      returns (failed: Option<Point>, created: Option<nat>, reserved: nat, ghost base: Tables)
      requires VisibleDraft(before, draftId) && FreshIds(before, o) && Sendable(before.drafts[draftId].status)
      requires Value() == before.(drafts := before.drafts[draftId := before.drafts[draftId].(status := InQueue)])
      modifies this`drafts, this`threads, this`messages, this`jobs, this`queue, billing
      ensures VisibleDraft(base, draftId) && Noted(base, draftId, o, created.Some?, reserved)
      ensures created == None || (created == Some(o.newThreadId) && FreshIds(base, o))
      ensures failed == BlockRefusal(before, draftId, o, fault)
      ensures base.drafts == before.drafts && base.account.reserved >= before.account.reserved
      ensures failed.Some? ==> base == Left(before, draftId, o, fault, failed.value)
      ensures failed.None? ==> base == before && reserved == o.cost && EnqueuedAs(before, Value(), draftId, o)
      ensures queue == old(queue) + (if failed.None? || (failed == Some(SendToQueue) && fault(SendToQueue) == Late)
                                     then [o.jobId] else [])
    {
      hide JobsOf, VisibleJob, ReservedIf, PreparationRefusal, ChargeRefusal, Left;
      ChecksLeaveNothing(before, draftId, o, fault);
      base, created, reserved := before, None, 0;
      if fault(CheckPayload) != Works || !o.payloadOk {
        return Some(CheckPayload), created, reserved, base;
      }
      var thread;
      failed, thread, created, base := PrepareThread(before, draftId, o, fault);
      if failed.Some? {
        return;
      }
      if fault(CheckAttachments) != Works || !o.attachmentsOk {
        return Some(CheckAttachments), created, reserved, base;
      }
      failed, reserved, base := ChargeAndStore(before, draftId, o, thread, created.Some?, fault);
    }

    /** Either the draft is queued, with one visible job and its cost reserved, or nothing has changed: unless
        the exception came from a place that leaks, and then exactly that is left. */
    method EnqueueDraftSend(draftId: nat, o: Order, fault: Point -> Fault) returns (r: Result)
      requires FreshIds(Value(), o) && billing.reserved >= 0
      modifies this, billing
      ensures var refusal := Refusal(old(Value()), draftId, o, fault);
              r == if refusal.Some? then Refused(refusal.value) else Queued(o.jobId)
      ensures r.Queued? ==> EnqueuedAs(old(Value()), Value(), draftId, o)
      ensures r.Refused? ==> Value() == Left(old(Value()), draftId, o, fault, r.at)
      ensures queue == old(queue) + (if r.Queued? || (r == Refused(SendToQueue) && fault(SendToQueue) == Late)
                                     then [o.jobId] else [])
    {
      hide JobsOf, BlockRefusal, EnqueuedAs, ReservedIf, Left;
      OutsideTheBlock(Value(), draftId, o, fault);
      ghost var before := Value();
      if fault(LoadDraft) != Works || draftId !in drafts
         || (drafts[draftId].threadId.Some? && drafts[draftId].threadId.value !in threads)
         || !(drafts[draftId].status == Editable || drafts[draftId].status == Approved) {
        return Refused(LoadDraft);
      }
      var draft := drafts[draftId];
      if fault(ClaimDraft) == Early {
        return Refused(ClaimDraft);
      }
      var claimed := ClaimDraftForSend(draftId);
      if fault(ClaimDraft) == Late {
        return Refused(ClaimDraft);
      }
      if fault(ConfirmClaim) != Works {
        return Refused(ConfirmClaim);
      }
      var failed, created, reserved; ghost var base;
      failed, created, reserved, base := TryEnqueue(before, draftId, o, fault);
      if failed.Some? {
        Compensate(base, draftId, o, draft.status, draft.threadId, created, reserved);
        return Refused(failed.value);
      }
      return Queued(o.jobId);
    }
  }

  function ReservedIf(a: Account, cost: nat): Account {
    if cost > 0 then OrElse(Reserved(a, cost), a) else a
  }

  /** What a refusal at `at` leaves of the tables it found. */
  function Left(t: Tables, draftId: nat, o: Order, fault: Point -> Fault, at: Point): Tables {
    if draftId !in t.drafts || !Leaks(t, o, fault, at) then t
    else if at == ClaimDraft || at == ConfirmClaim then
      t.(drafts := t.drafts[draftId := t.drafts[draftId].(status := InQueue)])
    else if at == CreateThread then t.(threads := t.threads + {o.newThreadId})
    else t.(account := ReservedIf(t.account, o.cost))
  }

  /** Inside the compensated block nothing but a thread or a reservation can stay behind, and for a failed check
      nothing does. */
  lemma ChecksLeaveNothing(t: Tables, draftId: nat, o: Order, fault: Point -> Fault)
    ensures Left(t, draftId, o, fault, CheckPayload) == t && Left(t, draftId, o, fault, CheckAttachments) == t
    ensures forall at :: at != ClaimDraft && at != ConfirmClaim ==>
              (Left(t, draftId, o, fault, at).drafts == t.drafts && t.threads <= Left(t, draftId, o, fault, at).threads
               && Left(t, draftId, o, fault, at).account.reserved >= t.account.reserved)
  {
  }

  /** Outside the compensated block only the claim can stay behind. */
  lemma OutsideTheBlock(t: Tables, draftId: nat, o: Order, fault: Point -> Fault)
    ensures Left(t, draftId, o, fault, LoadDraft) == t
    ensures draftId in t.drafts ==>
              Left(t, draftId, o, fault, ClaimDraft)
              == (if fault(ClaimDraft) == Late then
                    t.(drafts := t.drafts[draftId := t.drafts[draftId].(status := InQueue)])
                  else t)
              && Left(t, draftId, o, fault, ConfirmClaim)
                 == t.(drafts := t.drafts[draftId := t.drafts[draftId].(status := InQueue)])
  {
  }

  /** The tables after a draft was queued. */
  ghost predicate EnqueuedAs(before: Tables, after: Tables, draftId: nat, o: Order) {
    && draftId in before.drafts && Sendable(before.drafts[draftId].status)
    && var draft := before.drafts[draftId];
       var thread := ThreadFor(draft, o);
       && JobsOf(before, draft.key) == {}
       && after == Tables(
            before.drafts[draftId := draft.(status := InQueue, threadId := thread)],
            before.jobs[o.jobId := OutboundJob(o.messageId, draft.key)],
            before.messages[o.messageId := Message(true, thread)],
            before.threads + (if draft.threadId.None? && o.hasSubject then {o.newThreadId} else {}),
            ReservedIf(before.account, o.cost))
       && (o.cost > 0 ==> before.account.available >= o.cost)
  }

  lemma MessageAddsNoJob(base: Tables, t: Tables, o: Order, key: nat, thread: Option<nat>)
    requires FreshIds(base, o) && t.jobs == base.jobs
    requires t.messages == base.messages[o.messageId := Message(true, thread)]
    ensures JobsOf(t, key) == JobsOf(base, key)
  {
  }

  /** A queued draft has exactly one visible job, and reserved credits grew by the cost of the send exactly
      when it is chargeable. */
  lemma QueuedOnce(before: Tables, after: Tables, draftId: nat, o: Order)
    requires EnqueuedAs(before, after, draftId, o) && FreshIds(before, o)
    ensures JobsOf(after, before.drafts[draftId].key) == {o.jobId}
    ensures after.account.reserved == before.account.reserved + o.cost
    ensures (after.account.reserved != before.account.reserved <==> o.cost > 0)
    ensures after.account.available + after.account.reserved == before.account.available + before.account.reserved
    ensures forall key :: key != before.drafts[draftId].key ==> JobsOf(after, key) == JobsOf(before, key)
  {
    var key := before.drafts[draftId].key;
    assert o.jobId in JobsOf(after, key);
    forall job | job in JobsOf(after, key) ensures job == o.jobId {
      assert job == o.jobId || job in JobsOf(before, key);
    }
    forall other | other != key ensures JobsOf(after, other) == JobsOf(before, other) {
      assert forall job :: job in JobsOf(after, other) <==> job in JobsOf(before, other);
    }
  }

  /** A queued draft keeps its thread if it has one, and otherwise gets a new one exactly when its subject is not blank;
      its message is in the same thread. Other drafts and messages stay as they were. */
  lemma QueuedKeepsConversation(before: Tables, after: Tables, draftId: nat, o: Order)
    requires EnqueuedAs(before, after, draftId, o) && VisibleDraft(before, draftId) && FreshIds(before, o)
    ensures after.drafts[draftId].status == InQueue && after.drafts[draftId].key == before.drafts[draftId].key
    ensures before.drafts[draftId].threadId.Some? ==>
              after.drafts[draftId].threadId == before.drafts[draftId].threadId && after.threads == before.threads
    ensures before.drafts[draftId].threadId.None? && o.hasSubject ==>
              after.drafts[draftId].threadId == Some(o.newThreadId) && after.threads == before.threads + {o.newThreadId}
    ensures before.drafts[draftId].threadId.None? && !o.hasSubject ==>
              after.drafts[draftId].threadId == None && after.threads == before.threads
    ensures o.messageId in after.messages && after.messages[o.messageId].visible
            && after.messages[o.messageId].threadId == after.drafts[draftId].threadId
    ensures VisibleDraft(after, draftId)
    ensures after.drafts.Keys == before.drafts.Keys && after.messages.Keys == before.messages.Keys + {o.messageId}
    ensures forall d :: d in before.drafts && d != draftId ==> after.drafts[d] == before.drafts[d]
    ensures forall m :: m in before.messages ==> after.messages[m] == before.messages[m]
  {
    hide JobsOf;
  }

  /** A refused send leaves every table as it was exactly when it did not fail in one of the places that leak. */
  lemma RefusedLeavesNothing(t: Tables, draftId: nat, o: Order, fault: Point -> Fault, at: Point)
    requires draftId in t.drafts && Sendable(t.drafts[draftId].status) && FreshIds(t, o)
    ensures Left(t, draftId, o, fault, at) == t <==> !Leaks(t, o, fault, at)
  {
    if Leaks(t, o, fault, at) && (at == ClaimDraft || at == ConfirmClaim) {
      assert Left(t, draftId, o, fault, at).drafts[draftId].status == InQueue;
    } else if Leaks(t, o, fault, at) && at == CreateThread {
      assert o.newThreadId in Left(t, draftId, o, fault, at).threads;
    }
  }

  function ThreadFor(d: Draft, o: Order): Option<nat> {
    if d.threadId.None? && o.hasSubject then Some(o.newThreadId) else d.threadId
  }
}
