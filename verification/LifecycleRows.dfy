/**
 What the transactions on the rows of one execution do, said about the stored fields: when each is refused and
 why, and what it leaves behind. The runs of the whole system are built from these transactions.
 */
module LifecycleRows {
  import opened Wrappers
  import opened Lifecycle
  import opened LifecycleInvariant

  // ---------------------------------------------------------------- the open request and the checkpoint

  /** Request `k` is the newest one that was not used up yet. */
  predicate NewestOpen(r: Row, k: nat) {
    && k < |r.resumes| && !r.resumes[k].status.Consumed?
    && forall i | k < i < |r.resumes| :: r.resumes[i].status.Consumed?
  }

  predicate NothingOpen(r: Row) {
    forall i | 0 <= i < |r.resumes| :: r.resumes[i].status.Consumed?
  }

  lemma {:induction false} NewestIsFound(r: Row, resumes: seq<ResumeRequest>)
    requires r.resumes == resumes
    ensures match OpenResume(resumes) case Some(k) => NewestOpen(r, k) case None => NothingOpen(r)
    ensures forall k: nat | NewestOpen(r, k) :: OpenResume(resumes) == Some(k)
    decreases |resumes|
  {
    if resumes != [] && !resumes[|resumes| - 1].Open() {
      var shorter := r.(resumes := resumes[..|resumes| - 1]);
      NewestIsFound(shorter, resumes[..|resumes| - 1]);
      assert forall k: nat | NewestOpen(r, k) :: NewestOpen(shorter, k);
    }
  }

  /** The checkpoint shows an interrupt: some answer is still to be handed over. */
  predicate ShowsInterrupt(view: CheckpointView) {
    view.Saved? && view.pending != map[]
  }

  /** Nothing in the checkpoint speaks against handing over the answer. */
  predicate Fits(request: ResumeRequest, pending: map<Id, Digest>) {
    pending != map[] ==>
      && request.interruptId in pending
      && (request.callsHash.length == 64 ==> pending[request.interruptId] == request.callsHash)
  }

  /** What a claim asks of the checkpoint. */
  ghost predicate CheckpointFits(r: Row, view: CheckpointView) {
    if NothingOpen(r) then r.attemptCount > 0 ==> !view.Unreadable?
    else !view.Unreadable? && forall k: nat | NewestOpen(r, k) :: view.Saved? ==> Fits(r.resumes[k], view.pending)
  }

  /** Each reason for which the checkpoint refuses a claim, and that there is no other. */
  lemma ObjectionExactly(r: Row, view: CheckpointView)
    ensures CheckpointObjection(r, view) == None <==> CheckpointFits(r, view)
    ensures CheckpointObjection(r, view) == Some(CheckpointUnreadable) <==> !NothingOpen(r) && view.Unreadable?
    ensures CheckpointObjection(r, view) == Some(InterruptMismatch)
        <==> exists k: nat | NewestOpen(r, k) :: ShowsInterrupt(view) && r.resumes[k].interruptId !in view.pending
    ensures CheckpointObjection(r, view) == Some(ToolCallMismatch)
        <==> exists k: nat | NewestOpen(r, k) ::
               && view.Saved? && r.resumes[k].interruptId in view.pending
               && r.resumes[k].callsHash.length == 64
               && view.pending[r.resumes[k].interruptId] != r.resumes[k].callsHash
    ensures CheckpointObjection(r, view) == Some(RecoveryLookupFailed)
        <==> NothingOpen(r) && r.attemptCount > 0 && view.Unreadable?
  {
    NewestIsFound(r, r.resumes);
    hide OpenResume;
    KeysOfEmpty(PendingInterrupts(view));
  }

  lemma KeysOfEmpty(m: map<Id, Digest>)
    ensures m.Keys == {} <==> m == map[]
    ensures forall i | i in m :: m != map[]
  {
    assert m.Keys == {} ==> m == map[];
  }

  /** What a granted claim hands to its worker. */
  lemma GrantExactly(r: Row, view: CheckpointView)
    ensures var outcome := Grant(r, view);
            && (outcome.resume.None? <==> NothingOpen(r))
            && (forall k: nat | NewestOpen(r, k) ::
                  outcome.resume == Some(k)
                  && outcome.answer == (if ShowsInterrupt(view) then Some(r.resumes[k].value) else None)
                  && (outcome.fromCheckpoint <==> !ShowsInterrupt(view)))
            && (NothingOpen(r) ==>
                  outcome.answer == None && (outcome.fromCheckpoint <==> r.attemptCount > 0 && view.Saved?))
  {
    NewestIsFound(r, r.resumes);
    hide OpenResume;
    KeysOfEmpty(PendingInterrupts(view));
  }

  // ---------------------------------------------------------------- claims

  /** No lease of another worker protects the unfinished row. */
  predicate Free(r: Row, now: Time) {
    !r.status.Terminal() && (r.leaseExpiresAt.Some? ==> r.leaseExpiresAt.value <= now)
  }

  predicate Ended(r: Row, r': Row, status: RunStatus, error: Failure, now: Time) {
    r' == r.(status := status, error := error, finishedAt := Some(now), outbox := r'.outbox)
  }

  /** A claim is granted exactly to an unprotected row with everything in order; every refusal has its reason. */
  lemma ClaimExactly(cfg: Settings, r: Row, w: Id, now: Time, context: ClaimContext, active: bool,
                     view: CheckpointView)
    ensures var (r', outcome) := ClaimRow(cfg, r, w, now, context, active, view);
            var hasAttempts := r.attemptCount < cfg.maxAttempts;
            && (outcome.Granted? <==>
                  Free(r, now) && hasAttempts && context.ContextFound? && active && CheckpointFits(r, view))
            && (outcome.Granted? ==> outcome == Grant(r, view) && r' == GrantedRow(cfg, r, w, now))
            && (!Free(r, now) ==> r' == r)
            && (Free(r, now) && !hasAttempts ==> Ended(r, r', Failed, RetryLimit, now))
            && (Free(r, now) && hasAttempts && context.ContextMissing? ==> Ended(r, r', Failed, ContextIncomplete, now))
            && (Free(r, now) && hasAttempts && context.ContextMismatch? ==> Ended(r, r', Failed, AgentMismatch, now))
            && (Free(r, now) && hasAttempts && context.ContextFound? && !active ==>
                  Ended(r, r', Cancelled, UserDisabled, now)
                  && (r'.outbox.Some? ==> r'.outbox.value.status == Withdrawn))
            && (Free(r, now) && hasAttempts && context.ContextFound? && active && !CheckpointFits(r, view) ==>
                  CheckpointObjection(r, view).Some?
                  && Ended(r, r', Failed, CheckpointObjection(r, view).value, now))
  {
    ObjectionExactly(r, view);
    hide CheckpointObjection, CheckpointFits, Grant, GrantedRow;
  }

  /** The row of a granted claim: a new running attempt, a lease, and the open request marked for the worker. */
  lemma GrantedExactly(cfg: Settings, r: Row, w: Id, now: Time)
    ensures var r' := GrantedRow(cfg, r, w, now);
            && r'.status == Pending && r'.worker == Some(w) && r'.leaseExpiresAt == Some(now + cfg.leaseSeconds)
            && r'.claimedAt == Some(now) && r'.heartbeatAt == Some(now)
            && r'.attempts == r.attempts + [Attempt(r.attemptCount + 1, r.nextKind, w, AttemptRunning, now, None)]
            && r'.attemptCount == r.attemptCount + 1 && r'.currentAttempt == Some(|r.attempts|)
            && |r'.resumes| == |r.resumes|
            && (forall k | 0 <= k < |r.resumes| ::
                  r'.resumes[k] == if NewestOpen(r, k)
                                   then r.resumes[k].(status := ResumeStatus.Claimed, claimedBy := Some(w),
                                                      claimedAt := Some(now))
                                   else r.resumes[k])
            && Untouched(r, r') && r'.error == r.error && r'.startedAt == r.startedAt && r'.interrupt == r.interrupt
            && r'.finishedAt == r.finishedAt && r'.cancelRequestedAt == r.cancelRequestedAt
            && r'.nextKind == r.nextKind && r'.outbox == r.outbox
  {
    NewestIsFound(r, r.resumes);
    hide OpenResume;
  }

  /** What no transaction ever changes. */
  predicate Untouched(r: Row, r': Row) {
    r'.session == r.session && r'.user == r.user && r'.key == r.key && r'.createdAt == r.createdAt
  }

  /** A new turn waits for a worker at once. */
  lemma NewTurnWaits(session: Id, user: Id, key: Option<Token>, now: Time)
    ensures var r := NewRow(session, user, key, now);
            && r.session == session && r.user == user && r.key == key && r.createdAt == now
            && AwaitsWorker(r) && Dispatchable(r.outbox.value, now) && r.outbox.value.attempts == 0
            && r.attempts == [] && r.attemptCount == 0 && r.currentAttempt == None && r.resumes == []
            && r.nextKind == Initial && r.error == NoError && r.interrupt == None && r.cancelRequestedAt == None
            && r.startedAt == None && r.finishedAt == None && r.heartbeatAt == None
            && r.outbox.value.publishedAt == None
  {
  }

  // ---------------------------------------------------------------- the runner

  /** The last attempt, if it is still open, was closed; the others are as they were. */
  ghost predicate ClosedLast(cfg: Settings, r: Row, attempts: seq<Attempt>, status: AttemptStatus, now: Time) {
    && |attempts| == |r.attempts|
    && forall i | 0 <= i < |r.attempts| ::
         attempts[i] == if i == |r.attempts| - 1 && r.attempts[i].finishedAt.None?
                        then r.attempts[i].(status := status, finishedAt := Some(now)) else r.attempts[i]
  }

  lemma CloseExactly(cfg: Settings, r: Row, status: AttemptStatus, now: Time)
    requires LedgerOk(cfg, r)
    ensures ClosedLast(cfg, r, CloseAttempt(r, status, now), status, now)
  {
  }

  /** What the runner leaves of a row it ends: an earlier finish time is kept and the open attempt is closed. */
  ghost predicate EndedBy(cfg: Settings, r: Row, r': Row, status: RunStatus, error: Failure, attempt: AttemptStatus,
                          now: Time)
  {
    && r' == r.(status := status, error := error, interrupt := None, finishedAt := r'.finishedAt,
                attempts := r'.attempts, resumes := r'.resumes)
    && r'.finishedAt == (if r.finishedAt.Some? then r.finishedAt else Some(now))
    && ClosedLast(cfg, r, r'.attempts, attempt, now)
  }

  lemma FailureExactly(cfg: Settings, r: Row, now: Time)
    requires LedgerOk(cfg, r)
    ensures EndedBy(cfg, r, FailedRow(r, now), Failed, RuntimeFailure, AttemptFailed, now)
    ensures FailedRow(r, now).resumes == r.resumes
  {
    CloseExactly(cfg, r, AttemptFailed, now);
  }

  /** The start gate opens exactly for an unfinished row without a cancel that no live worker is running. */
  lemma StartExactly(cfg: Settings, r: Row, now: Time)
    requires LedgerOk(cfg, r)
    ensures var (r', outcome) := StartGate(cfg, r, now);
            var running := r.status == Running && r.heartbeatAt.Some? && now < r.heartbeatAt.value + cfg.leaseSeconds;
            && (outcome.Started? <==> !r.status.Terminal() && !running && r.cancelRequestedAt.None?)
            && (outcome.StoppedByCancel? <==> !r.status.Terminal() && !running && r.cancelRequestedAt.Some?)
            && (outcome.Skipped? ==> r' == r)
            && (outcome.StoppedByCancel? ==>
                  EndedBy(cfg, r, r', Cancelled, NoError, AttemptCancelled, now) && r'.resumes == r.resumes)
            && (outcome.Started? ==>
                  && r' == r.(status := Running, error := NoError, interrupt := None, nextKind := Retry,
                              heartbeatAt := Some(now), startedAt := r'.startedAt, claimedAt := r'.claimedAt)
                  && r'.startedAt == (if r.startedAt.Some? then r.startedAt else Some(now))
                  && r'.claimedAt == (if r.claimedAt.Some? then r.claimedAt else Some(now)))
  {
    CloseExactly(cfg, r, AttemptCancelled, now);
    hide CloseAttempt, ClosedLast, LedgerOk;
  }

  /** Only the request the worker was granted is used up. */
  predicate UsedUp(resumes: seq<ResumeRequest>, resumes': seq<ResumeRequest>, request: Option<nat>) {
    && |resumes'| == |resumes|
    && forall k | 0 <= k < |resumes| ::
         resumes'[k] == if request == Some(k) then resumes[k].(status := ResumeStatus.Consumed) else resumes[k]
  }

  /** A finish: ignored from a worker that was replaced, a cancel if one was requested, else completion. */
  lemma FinishExactly(cfg: Settings, r: Row, w: Id, request: Option<nat>, now: Time)
    requires LedgerOk(cfg, r)
    ensures var r' := FinishRow(r, w, request, now);
            && (r.worker != Some(w) ==> r' == r)
            && (r.worker == Some(w) && r.cancelRequestedAt.Some? ==>
                  EndedBy(cfg, r, r', Cancelled, NoError, AttemptCancelled, now) && r'.resumes == r.resumes)
            && (r.worker == Some(w) && r.cancelRequestedAt.None? ==>
                  EndedBy(cfg, r, r', Completed, NoError, AttemptCompleted, now)
                  && UsedUp(r.resumes, r'.resumes, request))
  {
    CloseExactly(cfg, r, AttemptCancelled, now);
    CloseExactly(cfg, r, AttemptCompleted, now);
    hide CloseAttempt, ClosedLast, LedgerOk;
  }

  /** A suspension: the same two refusals, else the row waits with the raised interrupt. */
  lemma SuspendExactly(cfg: Settings, r: Row, w: Id, request: Option<nat>, raised: Interrupt, now: Time)
    requires LedgerOk(cfg, r)
    ensures var r' := SuspendRow(r, w, request, raised, now);
            && (r.worker != Some(w) ==> r' == r)
            && (r.worker == Some(w) && r.cancelRequestedAt.Some? ==>
                  EndedBy(cfg, r, r', Cancelled, NoError, AttemptCancelled, now) && r'.resumes == r.resumes)
            && (r.worker == Some(w) && r.cancelRequestedAt.None? ==>
                  && r' == r.(status := WaitingInput, error := NoError, interrupt := Some(raised),
                              attempts := r'.attempts, resumes := r'.resumes)
                  && ClosedLast(cfg, r, r'.attempts, AttemptWaiting, now) && UsedUp(r.resumes, r'.resumes, request))
  {
    CloseExactly(cfg, r, AttemptCancelled, now);
    CloseExactly(cfg, r, AttemptWaiting, now);
    hide CloseAttempt, ClosedLast, LedgerOk;
  }

  /** A heartbeat renews the lease exactly for the worker named in an unfinished row. */
  lemma HeartbeatExactly(cfg: Settings, r: Row, w: Id, now: Time)
    ensures HeartbeatRow(cfg, r, w, now)
         == if r.worker == Some(w) && r.status in {Pending, Running, WaitingInput}
            then r.(heartbeatAt := Some(now), leaseExpiresAt := Some(now + cfg.leaseSeconds)) else r
  {
  }

  // ---------------------------------------------------------------- the API and the admin

  /** A cancel ends what is not running and leaves a request, with its first time, on what is. */
  lemma CancelExactly(r: Row, now: Time)
    ensures var r' := CancelRow(r, now);
            && (r.status in {Pending, WaitingInput} ==>
                  r' == r.(status := Cancelled, finishedAt := Some(now), interrupt := None))
            && (r.status == Running ==>
                  r' == r.(cancelRequestedAt := if r.cancelRequestedAt.Some? then r.cancelRequestedAt else Some(now)))
            && (r.status in {Completed, Failed, Cancelled} ==> r' == r)
  {
  }

  /** Disabling the user does the same, names the reason, and withdraws what was not dispatched yet. */
  lemma DisableExactly(r: Row, now: Time)
    ensures var r' := DisableRow(r, now);
            && (r.status in {Pending, WaitingInput} ==>
                  && r' == r.(status := Cancelled, finishedAt := Some(now), interrupt := None, error := UserDisabled,
                              outbox := r'.outbox)
                  && (r.outbox.Some? <==> r'.outbox.Some?)
                  && (r.outbox.Some? ==> r'.outbox.value == r.outbox.value.(status := Withdrawn)))
            && (r.status == Running ==>
                  r' == r.(cancelRequestedAt := if r.cancelRequestedAt.Some? then r.cancelRequestedAt else Some(now)))
            && (r.status in {Completed, Failed, Cancelled} ==> r' == r)
  {
  }

  /** Each reason for which a resume is rejected, in terms of the stored fields. */
  lemma ResumeRejectedExactly(r: Row, value: Option<Token>)
    ensures var o := ResumeObjection(r, value);
            var identified := r.interrupt.Some? && r.interrupt.value.id != NO_ID;
            && (o == Some(NotWaiting) <==> r.status != WaitingInput)
            && (o == Some(ValueRequired) <==> r.status == WaitingInput && value.None?)
            && (o == Some(IdentityMissing) <==> r.status == WaitingInput && value.Some? && !identified)
            && (o == Some(AlreadyPending) <==>
                  r.status == WaitingInput && value.Some? && identified && !NothingOpen(r))
            && (o == Some(DuplicateInterrupt) <==>
                  && r.status == WaitingInput && value.Some? && identified && NothingOpen(r)
                  && exists i | 0 <= i < |r.resumes| :: r.resumes[i].interruptId == r.interrupt.value.id)
  {
    NewestIsFound(r, r.resumes);
    hide OpenResume;
  }

  /** An accepted resume records the value for the interrupt that was asked, and queues the row for a new worker. */
  lemma ResumeExactly(r: Row, value: Option<Token>, now: Time)
    ensures var r' := ResumeRow(r, value, now);
            if ResumeObjection(r, value).Some? then r' == r
            else
              && r.interrupt.Some? && value.Some?
              && r'.resumes == r.resumes + [ResumeRequest(r.interrupt.value.id, r.interrupt.value.callsHash,
                                                          value.value, Requested, None, None)]
              && Unclaimed(r') && QueuedNow(r.outbox, r'.outbox, now) && r'.nextKind == Resumed
              && r'.error == NoError && r'.finishedAt == None && r'.cancelRequestedAt == None
              && r'.heartbeatAt == None && r'.interrupt == r.interrupt && r'.startedAt == r.startedAt
              && Untouched(r, r') && r'.attempts == r.attempts && r'.attemptCount == r.attemptCount
              && r'.currentAttempt == r.currentAttempt
  {
    hide OpenResume;
  }

  /** The outbox row is to be sent now, and the count of its failed sends is kept. */
  predicate QueuedNow(o: Option<Outbox>, o': Option<Outbox>, now: Time) {
    && o'.Some? && o'.value.status == Queued && o'.value.availableAt == now
    && o'.value.lockedBy == None && o'.value.lockedUntil == None
    && o'.value.attempts == (if o.Some? then o.value.attempts else 0)
    && o'.value.publishedAt == (if o.Some? then o.value.publishedAt else None)
  }

  // ---------------------------------------------------------------- recovery

  /** A row expires exactly if it is pending, was published, and nobody claimed it in time. */
  lemma ExpiryExactly(cfg: Settings, r: Row, now: Time)
    ensures ExpireUnclaimed(cfg, r, now)
         == if && r.status == Pending && r.claimedAt == None && now > r.createdAt + cfg.claimTimeout
               && r.outbox.Some? && r.outbox.value.status == Published && r.outbox.value.publishedAt.Some?
            then r.(status := Failed, error := NeverClaimed, finishedAt := Some(now)) else r
  {
  }

  /** Recovery concerns exactly the claimed rows whose lease has run out: it requeues them or gives them up. */
  lemma RecoveryExactly(cfg: Settings, r: Row, now: Time)
    requires LedgerOk(cfg, r)
    ensures var r' := RecoverLease(cfg, r, now);
            var lapsed := r.status in {Pending, Running} && r.leaseExpiresAt.Some? && r.leaseExpiresAt.value < now;
            && (!lapsed ==> r' == r)
            && (lapsed ==> ClosedLast(cfg, r, r'.attempts, LeaseLost, now))
            && (lapsed && r.attemptCount >= cfg.maxAttempts ==>
                  r' == r.(status := Failed, error := RetryLimitAfterExpiry, finishedAt := Some(now),
                           attempts := r'.attempts))
            && (lapsed && r.attemptCount < cfg.maxAttempts ==>
                  && r' == r.(status := Pending, worker := None, claimedAt := None, heartbeatAt := None,
                              leaseExpiresAt := None, nextKind := Retry, attempts := r'.attempts, outbox := r'.outbox)
                  && QueuedNow(r.outbox, r'.outbox, now))
            && (Requeues(cfg, r, now) <==> lapsed && r.attemptCount < cfg.maxAttempts)
  {
    CloseExactly(cfg, r, LeaseLost, now);
    hide CloseAttempt, ClosedLast, LedgerOk;
  }

  // ---------------------------------------------------------------- the dispatcher

  /** A row is due when it is queued, or its dispatcher's lock has run out, and its delay has passed. */
  lemma DueExactly(o: Outbox, now: Time)
    ensures Dispatchable(o, now)
        <==> && (o.status == Queued || (o.status == Publishing && o.lockedUntil.Some?))
             && o.availableAt <= now && (o.lockedUntil.Some? ==> o.lockedUntil.value < now)
  {
  }

  /** Locking a due row keeps it from every dispatcher for exactly 30 seconds. */
  lemma LockExactly(r: Row, d: Id, now: Time, later: Time)
    requires r.outbox.Some? && later >= now
    ensures var r' := LockRow(r, d, now);
            && r' == r.(outbox := r'.outbox) && r'.outbox.Some?
            && (!Dispatchable(r.outbox.value, now) ==> r' == r)
            && (Dispatchable(r.outbox.value, now) ==>
                  && LockedBy(r', d) && (Dispatchable(r'.outbox.value, later) <==> later > now + 30)
                  && (forall e | e != d :: !LockedBy(r', e))
                  && r'.outbox.value.attempts == r.outbox.value.attempts
                  && r'.outbox.value.availableAt == r.outbox.value.availableAt
                  && r'.outbox.value.publishedAt == r.outbox.value.publishedAt)
  {
  }

  /** The holder of the lock, and nobody else, records that the row was published. */
  lemma PublishExactly(r: Row, d: Id, now: Time)
    ensures var r' := MarkPublishedRow(r, d, now);
            && r' == r.(outbox := r'.outbox)
            && (!HoldsLock(r, d) ==> r' == r)
            && (HoldsLock(r, d) ==>
                  r'.outbox == Some(Outbox(Published, r.outbox.value.attempts, r.outbox.value.availableAt, None, None,
                                           Some(now))))
  {
  }

  predicate HoldsLock(r: Row, d: Id) {
    r.outbox.Some? && r.outbox.value.status == Publishing && r.outbox.value.lockedBy == Some(d)
  }

  function PowerOfTwo(n: nat): nat {
    if n == 0 then 1 else 2 * PowerOfTwo(n - 1)
  }

  /** The delay doubles with every failed send and stops at a minute. */
  lemma {:induction false} BackoffExactly(attempts: nat)
    ensures Backoff(attempts) == if attempts < 6 then PowerOfTwo(attempts) else 60
    ensures PowerOfTwo(5) < 60 < PowerOfTwo(6)
  {
    assert PowerOfTwo(1) == 2 && PowerOfTwo(2) == 4 && PowerOfTwo(3) == 8 && PowerOfTwo(4) == 16;
    assert PowerOfTwo(5) == 32 && PowerOfTwo(6) == 64;
  }

  /** The holder of the lock, and nobody else, queues the row again after the delay. */
  lemma RetryExactly(r: Row, d: Id, now: Time)
    ensures var r' := MarkRetryRow(r, d, now);
            && r' == r.(outbox := r'.outbox)
            && (!HoldsLock(r, d) ==> r' == r)
            && (HoldsLock(r, d) ==>
                  var n := r.outbox.value.attempts + 1;
                  r'.outbox == Some(Outbox(Queued, n, now + (if n < 6 then PowerOfTwo(n) else 60), None, None,
                                           r.outbox.value.publishedAt)))
  {
    if HoldsLock(r, d) {
      BackoffExactly(r.outbox.value.attempts + 1);
    }
  }
}
