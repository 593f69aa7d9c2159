/** What one delivery of an outbound job comes to when nothing disturbs it, whatever state it finds. */
module OutboundOutcome {
  import opened Jobs
  import opened OutboundProtocol
  import opened Text

  lemma Next(c: Config, id: nat, s: Shared, w: Worker, n: nat)
    requires n > 0
    ensures var r := Advance(c, id, s, w); AdvanceN(c, id, s, w, n) == AdvanceN(c, id, r.0, r.1, n - 1)
  {
    hide Advance;
  }

  lemma {:induction false} StoppedStays(c: Config, id: nat, s: Shared, w: Worker, n: nat)
    requires w.pc == Stopped
    ensures AdvanceN(c, id, s, w, n) == (s, w)
    decreases n
  {
    if n > 0 {
      Next(c, id, s, w, n);
      StoppedIsStopped(c, id, s, w);
      StoppedStays(c, id, s, w, n - 1);
    }
  }

  lemma StoppedIsStopped(c: Config, id: nat, s: Shared, w: Worker)
    requires w.pc == Stopped
    ensures Advance(c, id, s, w) == (s, w)
  {
  }

  /** Job, message and draft agree on an outcome. */
  predicate Concluded(c: Config, s: Shared, sent: bool) {
    && s.job.status == (if sent then Sent else Failed)
    && s.message.mark == (if sent then Done else Broken)
    && (c.hasDraft ==> s.draft == if sent then Done else Broken)
  }

  /** Nothing was claimed and nothing sent. */
  predicate NotSent(s: Shared, t: Shared) {
    t.claims == s.claims && t.accepted == s.accepted && t.holder == s.holder && t.job.retryCount == s.job.retryCount
  }

  lemma SentConcludes(c: Config, id: nat, s: Shared, w: Worker, n: nat)
    requires w.pc == SentMessage && n >= 3 && s.job.status == Sent && w.message == s.message && w.draft == s.draft
    ensures var r := AdvanceN(c, id, s, w, n); r.1.pc == Stopped && Concluded(c, r.0, true) && NotSent(s, r.0)
  {
    hide AdvanceN, CatchWrite, Branch;
    Next(c, id, s, w, n);
    var s1 := Advance(c, id, s, w).0;
    Next(c, id, s1, At(w, SentDraft), n - 1);
    var s2 := Advance(c, id, s1, At(w, SentDraft)).0;
    Next(c, id, s2, At(w, Settle), n - 2);
    StoppedStays(c, id, s2, At(w, Stopped), n - 3);
  }

  lemma RecoveryConcludes(c: Config, id: nat, s: Shared, w: Worker, n: nat)
    requires w.pc == RecoverMessage && n >= 4
    ensures var r := AdvanceN(c, id, s, w, n); r.1.pc == Stopped && Concluded(c, r.0, true) && NotSent(s, r.0)
  {
    hide AdvanceN, CatchWrite, Branch;
    Next(c, id, s, w, n);
    var s1 := WithMessage(s, Done);
    Next(c, id, s1, At(w, RecoverDraft), n - 1);
    var s2 := WithDraft(c, s1, Done);
    Next(c, id, s2, At(w, RecoverJob), n - 2);
    var s3 := WithStatus(s2, Sent);
    Next(c, id, s3, At(w, Settle), n - 3);
    StoppedStays(c, id, s3, At(w, Stopped), n - 4);
  }

  lemma RejectionConcludes(c: Config, id: nat, s: Shared, w: Worker, n: nat)
    requires w.pc == RejectMessage && n >= 4
    ensures var r := AdvanceN(c, id, s, w, n); r.1.pc == Stopped && Concluded(c, r.0, false) && NotSent(s, r.0)
  {
    hide AdvanceN, CatchWrite, Branch;
    Next(c, id, s, w, n);
    var s1 := WithMessage(s, Broken);
    Next(c, id, s1, At(w, RejectDraft), n - 1);
    var s2 := WithDraft(c, s1, Broken);
    Next(c, id, s2, At(w, RejectRelease), n - 2);
    Next(c, id, s2, At(w, RejectJob), n - 3);
    StoppedStays(c, id, WithStatus(s2, Failed), At(w, Stopped), n - 4);
  }

  lemma DoubtConcludes(c: Config, id: nat, s: Shared, w: Worker, n: nat)
    requires w.pc == InDoubtJob && n >= 4
    ensures var r := AdvanceN(c, id, s, w, n); r.1.pc == Stopped && Concluded(c, r.0, false) && NotSent(s, r.0)
  {
    hide AdvanceN, CatchWrite, Branch;
    Next(c, id, s, w, n);
    var s1 := WithStatus(s, Failed);
    Next(c, id, s1, At(w, InDoubtMessage), n - 1);
    var s2 := WithMessage(s1, Broken);
    Next(c, id, s2, At(w, InDoubtDraft), n - 2);
    var s3 := WithDraft(c, s2, Broken);
    Next(c, id, s3, At(w, InDoubtLetter), n - 3);
    StoppedStays(c, id, s3, At(w, Stopped), n - 4);
  }

  lemma SendConcludes(c: Config, id: nat, s: Shared, w: Worker, n: nat)
    requires w.pc == FinishJob && n >= 4
    ensures var r := AdvanceN(c, id, s, w, n);
            r.1.pc == Stopped && Concluded(c, r.0, true) && NotSent(s, r.0) && r.0.message.provider
  {
    hide AdvanceN, CatchWrite, Branch;
    Next(c, id, s, w, n);
    var s1 := WithStatus(s, Sent);
    Next(c, id, s1, At(w, FinishMessage), n - 1);
    var s2 := s1.(message := MessageRow(Done, true));
    Next(c, id, s2, At(w, FinishDraft), n - 2);
    var s3 := WithDraft(c, s2, Done);
    Next(c, id, s3, At(w, Settle), n - 3);
    StoppedStays(c, id, s3, At(w, Stopped), n - 4);
  }

  /** What was known about the last attempt when the delivery read it. */
  predicate KnownSent(s: Shared) {
    s.message.provider || s.message.mark == Done || s.delivered
  }

  predicate KnownFailed(s: Shared) {
    !KnownSent(s) && (s.message.mark == Broken || s.bounced)
  }

  /** What an undisturbed delivery makes of the rows it finds: an open job is claimed, sent once and concluded as
      sent; a sent one is brought in line; one in flight is concluded as sent or failed when something is known
      about it, left alone while it is young, and given up as failed when it is old; a failed one is left alone. */
  predicate Handled(c: Config, s: Shared, t: Shared) {
    && (Claimable(s.job.status) ==>
          Concluded(c, t, true) && t.accepted == s.accepted + 1 && t.claims == s.claims + 1
          && t.message.provider && t.holder == None && t.job.retryCount == s.job.retryCount)
    && (!Claimable(s.job.status) ==> NotSent(s, t))
    && (s.job.status == Sent ==> Concluded(c, t, true))
    && (s.job.status == Sending && KnownSent(s) ==> Concluded(c, t, true))
    && (s.job.status == Sending && KnownFailed(s) ==> Concluded(c, t, false))
    && (s.job.status == Sending && !KnownSent(s) && !KnownFailed(s) ==>
          if s.clock - s.job.updatedAt < c.grace then t == s else Concluded(c, t, false))
    && (s.job.status == Failed ==> t == s)
  }

  /** An undisturbed delivery ends, and does that. */
  lemma UndisturbedDelivery(c: Config, id: nat, s: Shared, n: nat)
    requires s.holder == None && n == 12
    ensures var r := AdvanceN(c, id, s, Worker(ReadJob, None, MessageRow(Open, false), Open), n);
            r.1.pc == Stopped && Handled(c, s, r.0)
  {
    hide Advance, AdvanceN, Concluded, NotSent;
    var w := Worker(ReadJob, None, MessageRow(Open, false), Open);
    AdvanceAdds(c, id, s, w, 4, n - 4);
    ReadsOpen(c, id, s);
    var q := AdvanceN(c, id, s, w, 4).1;
    match q.pc
    case SentMessage => SentConcludes(c, id, s, q, n - 4);
    case RecoverMessage => RecoveryConcludes(c, id, s, q, n - 4);
    case RejectMessage => RejectionConcludes(c, id, s, q, n - 4);
    case InDoubtJob => DoubtConcludes(c, id, s, q, n - 4);
    case Stopped =>
      StoppedStays(c, id, s, q, n - 4);
      NothingHappened(s);
    case Claim =>
      if Claimable(s.job.status) {
        AdvanceAdds(c, id, s, q, 4, n - 8);
        ClaimSends(c, id, s, q);
        var r := AdvanceN(c, id, s, q, 4);
        SendConcludes(c, id, r.0, r.1, n - 8);
        OnlySent(s, r.0, AdvanceN(c, id, r.0, r.1, n - 8).0);
      } else {
        Next(c, id, s, q, n - 4);
        ClaimOrSendStep(c, id, s, q);
        ClaimRefused(c, id, s, q);
        StoppedStays(c, id, s, At(q, Stopped), n - 5);
        NothingHappened(s);
      }
  }

  lemma NothingHappened(s: Shared)
    ensures NotSent(s, s)
  {
  }

  lemma OnlySent(s: Shared, sent: Shared, t: Shared)
    requires sent == WithStatus(s, Sending).(claims := s.claims + 1, accepted := s.accepted + 1) && NotSent(sent, t)
    ensures t.accepted == s.accepted + 1 && t.claims == s.claims + 1 && t.holder == s.holder
            && t.job.retryCount == s.job.retryCount
  {
  }

  lemma ClaimRefused(c: Config, id: nat, s: Shared, w: Worker)
    requires w.pc == Claim && !Claimable(s.job.status)
    ensures Advance(c, id, s, w) == (s, At(w, Stopped))
  {
  }

  /** A send that throws costs one retry: with retries left the job waits for the next one and message and draft
      stay as they are; without, or against the policy, everything is concluded as failed. */
  lemma FailedAttempt(c: Config, id: nat, s: Shared, w: Worker, policy: bool, n: nat)
    requires w.pc == Send && w.job.Some? && s.holder == Some(id) && n >= 3
    ensures var thrown := Throw(c, id, s, w, policy);
            var r := AdvanceN(c, id, thrown.0, thrown.1, n); var t := r.0;
            && r.1.pc == Stopped && t.holder == None && t.accepted == s.accepted && t.claims == s.claims
            && t.job.retryCount == w.job.value.retryCount + 1
            && (if policy || w.job.value.retryCount + 1 > c.maxRetries then Concluded(c, t, false)
                else t.job.status == Retry && t.message == s.message && t.draft == s.draft)
  {
    hide AdvanceN, Branch, Advance;
    var q := At(w, CatchJob(policy));
    assert Throw(c, id, s, w, policy) == (s, q);
    var s1 := Released(CatchWrite(c, s, q, policy), id);
    Next(c, id, s, q, n);
    CaughtGoes(c, id, s, q, policy);
    if Exhausted(c, q, policy) {
      Next(c, id, s1, At(w, CatchMessage), n - 1);
      AbandonGoes(c, id, s1, At(w, CatchMessage));
      Next(c, id, WithMessage(s1, Broken), At(w, CatchDraft), n - 2);
      AbandonGoes(c, id, WithMessage(s1, Broken), At(w, CatchDraft));
      StoppedStays(c, id, WithDraft(c, WithMessage(s1, Broken), Broken), At(w, Stopped), n - 3);
    } else {
      StoppedStays(c, id, s1, At(w, Stopped), n - 1);
    }
  }

  lemma CaughtGoes(c: Config, id: nat, s: Shared, w: Worker, policy: bool)
    requires w.pc == CatchJob(policy) && w.job.Some?
    ensures Advance(c, id, s, w) ==
            (Released(CatchWrite(c, s, w, policy), id),
             At(w, if Exhausted(c, w, policy) then CatchMessage else Stopped))
  {
    hide CatchWrite, Exhausted;
  }

  lemma AbandonGoes(c: Config, id: nat, s: Shared, w: Worker)
    ensures w.pc == CatchMessage ==> Advance(c, id, s, w) == (WithMessage(s, Broken), At(w, CatchDraft))
    ensures w.pc == CatchDraft ==> Advance(c, id, s, w) == (WithDraft(c, s, Broken), At(w, Stopped))
  {
    hide CatchWrite, Exhausted, WithStatus, WithMessage, WithDraft;
  }
}
