/**
 The transactions of an agent execution performed in place, field by field, in the order
 of the services that own them. Each method is proved against its row specification in
 module Lifecycle, on which the invariants of every run are built.
 */
module ExecutionRecords {
  import opened Wrappers
  import opened Lifecycle

  class ExecutionRecord {
    const session: Id
    const user: Id
    const key: Option<Token>
    const createdAt: Time
    var status: RunStatus
    var error: Failure
    var interrupt: Option<Interrupt>
    var startedAt: Option<Time>
    var finishedAt: Option<Time>
    var cancelRequestedAt: Option<Time>
    var claimedAt: Option<Time>
    var heartbeatAt: Option<Time>
    var leaseExpiresAt: Option<Time>
    var worker: Option<Id>
    var attemptCount: nat
    var nextKind: AttemptKind
    var currentAttempt: Option<nat>
    var attempts: seq<Attempt>
    var outbox: Option<Outbox>
    var resumes: seq<ResumeRequest>

    /** The stored values as one row. */
    function View(): Row
      reads this
    {
      Row(session, user, key, createdAt, status, error, interrupt, startedAt, finishedAt,
          cancelRequestedAt, claimedAt, heartbeatAt, leaseExpiresAt, worker, attemptCount, nextKind,
          currentAttempt, attempts, outbox, resumes)
    }

    constructor CreateTurn(session: Id, user: Id, key: Option<Token>, now: Time)
      ensures View() == NewRow(session, user, key, now)
    {
      this.session, this.user, this.key, createdAt := session, user, key, now;
      status, error, interrupt := Pending, NoError, None;
      startedAt, finishedAt, cancelRequestedAt := None, None, None;
      claimedAt, heartbeatAt, leaseExpiresAt, worker := None, None, None, None;
      attemptCount, nextKind, currentAttempt := 0, Initial, None;
      attempts, resumes := [], [];
      outbox := Some(FreshOutbox(now));
    }

    method FailExecution(reason: Failure, now: Time)
      modifies this`status, this`error, this`finishedAt
      ensures View() == FailRow(old(View()), reason, now)
    {
      status := Failed;
      error := reason;
      finishedAt := Some(now);
    }

    method WithdrawOutboxRow()
      modifies this`outbox
      ensures outbox == WithdrawOutbox(old(outbox))
    {
      if outbox.Some? {
        outbox := Some(outbox.value.(status := Withdrawn));
      }
    }

    method CancelForDisabledUser(now: Time)
      modifies this`status, this`error, this`finishedAt, this`outbox
      ensures View() == CancelDisabledRow(old(View()), now)
    {
      status := Cancelled;
      error := UserDisabled;
      finishedAt := Some(now);
      WithdrawOutboxRow();
    }

    /** The checks of a claim against the checkpoint, and what the worker is handed if they pass. */
    method InspectCheckpoint(view: CheckpointView) returns (objection: Option<Failure>, outcome: ClaimOutcome)
      ensures objection == CheckpointObjection(View(), view)
      ensures outcome == if objection.None? then Grant(View(), view) else Refused
    {
      var open := OpenResume(resumes);
      if open.Some? {
        if view.Unreadable? { return Some(CheckpointUnreadable), Refused; }
        var pending := PendingInterrupts(view);
        var request := resumes[open.value];
        if pending.Keys != {} && request.interruptId !in pending { return Some(InterruptMismatch), Refused; }
        if pending.Keys != {} && request.callsHash.length == 64 && pending[request.interruptId] != request.callsHash {
          return Some(ToolCallMismatch), Refused;
        }
        var answer := if pending.Keys != {} then Some(request.value) else None;
        return None, Granted(open, answer, pending.Keys == {});
      } else if attemptCount > 0 {
        if view.Unreadable? { return Some(RecoveryLookupFailed), Refused; }
        return None, Granted(None, None, view.Saved?);
      }
      return None, Granted(None, None, false);
    }

    method ClaimRequest(workerId: Id, now: Time)
      modifies this`resumes
      ensures resumes == ClaimedResumes(old(resumes), workerId, now)
    {
      var open := OpenResume(resumes);
      if open.Some? {
        resumes := resumes[open.value := resumes[open.value].(
                             status := Claimed, claimedBy := Some(workerId), claimedAt := Some(now))];
      }
    }

    method OpenAttempt(workerId: Id, now: Time)
      modifies this`attempts, this`attemptCount, this`currentAttempt
      ensures attemptCount == old(attemptCount) + 1
      ensures attempts == old(attempts)
                          + [Attempt(attemptCount, nextKind, workerId, AttemptRunning, now, None)]
      ensures currentAttempt == Some(|attempts| - 1)
    {
      attemptCount := attemptCount + 1;
      currentAttempt := Some(|attempts|);
      attempts := attempts + [Attempt(attemptCount, nextKind, workerId, AttemptRunning, now, None)];
    }

    method SetLease(workerId: Id, now: Time, until: Time)
      modifies this`worker, this`claimedAt, this`heartbeatAt, this`leaseExpiresAt
      ensures worker == Some(workerId) && leaseExpiresAt == Some(until)
      ensures claimedAt == heartbeatAt == Some(now)
    {
      worker := Some(workerId);
      claimedAt, heartbeatAt := Some(now), Some(now);
      leaseExpiresAt := Some(until);
    }

    method DropLease()
      modifies this`worker, this`claimedAt, this`heartbeatAt, this`leaseExpiresAt
      ensures worker == claimedAt == heartbeatAt == leaseExpiresAt == None
    {
      worker, claimedAt, heartbeatAt, leaseExpiresAt := None, None, None, None;
    }

    method TakeLease(cfg: Settings, workerId: Id, now: Time)
      modifies this
      ensures View() == GrantedRow(cfg, old(View()), workerId, now)
    {
      hide ClaimedResumes;
      ClaimRequest(workerId, now);
      OpenAttempt(workerId, now);
      SetLease(workerId, now, now + cfg.leaseSeconds);
      status := Pending;
    }

    /** claim_execution: take the lease, open a new attempt, hand over the pending answer. */
    method Claim(cfg: Settings, workerId: Id, now: Time, context: ClaimContext, userActive: bool,
                 view: CheckpointView) returns (outcome: ClaimOutcome)
      modifies this
      ensures (View(), outcome) == ClaimRow(cfg, old(View()), workerId, now, context, userActive, view)
    {
      hide CheckpointObjection, GrantedRow, Grant;
      if status.Terminal() { return Refused; }
      if leaseExpiresAt.Some? && leaseExpiresAt.value > now { return Refused; }
      if attemptCount >= cfg.maxAttempts { FailExecution(RetryLimit, now); return Refused; }
      if context.ContextMissing? { FailExecution(ContextIncomplete, now); return Refused; }
      if context.ContextMismatch? { FailExecution(AgentMismatch, now); return Refused; }
      if !userActive { CancelForDisabledUser(now); return Refused; }
      var objection, granted := InspectCheckpoint(view);
      if objection.Some? { FailExecution(objection.value, now); return Refused; }
      TakeLease(cfg, workerId, now);
      return granted;
    }

    method FinishAttempt(outcome: AttemptStatus, now: Time)
      modifies this`attempts
      ensures attempts == CloseAttempt(old(View()), outcome, now)
    {
      if currentAttempt.None? || currentAttempt.value >= |attempts| { return; }
      var k := currentAttempt.value;
      if attempts[k].finishedAt.Some? { return; }
      attempts := attempts[k := attempts[k].(status := outcome, finishedAt := Some(now))];
    }

    method SetFinal(final: RunStatus, reason: Failure, now: Time)
      modifies this`status, this`error, this`interrupt, this`finishedAt
      ensures status == final && error == reason && interrupt == None
      ensures finishedAt == Some(old(finishedAt).Or(now))
    {
      status := final;
      error := reason;
      interrupt := None;
      finishedAt := Some(finishedAt.Or(now));
    }

    /** set_execution_state for a final status, followed by the closing of the attempt. */
    method End(final: RunStatus, reason: Failure, outcome: AttemptStatus, now: Time)
      modifies this`status, this`error, this`interrupt, this`finishedAt, this`attempts
      ensures View() == EndRow(old(View()), final, reason, outcome, now)
    {
      SetFinal(final, reason, now);
      FinishAttempt(outcome, now);
    }

    method EnterRunning(now: Time)
      modifies this`claimedAt, this`heartbeatAt, this`status, this`error, this`interrupt, this`startedAt, this`nextKind
      ensures claimedAt == Some(old(claimedAt).Or(now)) && heartbeatAt == Some(now)
      ensures status == Running && error == NoError && interrupt == None
      ensures startedAt == Some(old(startedAt).Or(now)) && nextKind == Retry
    {
      claimedAt := Some(claimedAt.Or(now));
      heartbeatAt := Some(now);
      status, error, interrupt := Running, NoError, None;
      startedAt := Some(startedAt.Or(now));
      nextKind := Retry;
    }

    /** The runner's start gate. */
    method Start(cfg: Settings, now: Time) returns (outcome: GateOutcome)
      modifies this
      ensures (View(), outcome) == StartGate(cfg, old(View()), now)
    {
      hide EndRow;
      if status.Terminal() { return Skipped; }
      if status.Running? && heartbeatAt.Some? && heartbeatAt.value + cfg.leaseSeconds > now { return Skipped; }
      if cancelRequestedAt.Some? {
        End(Cancelled, NoError, AttemptCancelled, now);
        return StoppedByCancel;
      }
      EnterRunning(now);
      return Started;
    }

    method ConsumeRequest(request: Option<nat>)
      modifies this`resumes
      ensures resumes == ConsumeResume(old(resumes), request)
    {
      if request.Some? && request.value < |resumes| {
        resumes := resumes[request.value := resumes[request.value].(status := Consumed)];
      }
    }

    method EnterWaiting(raised: Interrupt)
      modifies this`status, this`error, this`interrupt
      ensures status == WaitingInput && error == NoError && interrupt == Some(raised)
    {
      interrupt := Some(raised);
      status, error := WaitingInput, NoError;
    }

    /** The run ended in an interrupt: consume the answered request, then wait for input. */
    method SuspendForInput(workerId: Id, request: Option<nat>, raised: Interrupt, now: Time)
      modifies this
      ensures View() == SuspendRow(old(View()), workerId, request, raised, now)
    {
      hide EndRow, ConsumeResume;
      if worker != Some(workerId) { return; }
      if cancelRequestedAt.Some? { End(Cancelled, NoError, AttemptCancelled, now); return; }
      ConsumeRequest(request);
      EnterWaiting(raised);
      FinishAttempt(AttemptWaiting, now);
    }

    method Finish(workerId: Id, request: Option<nat>, now: Time)
      modifies this
      ensures View() == FinishRow(old(View()), workerId, request, now)
    {
      hide ConsumeResume;
      if worker != Some(workerId) { return; }
      if cancelRequestedAt.Some? { End(Cancelled, NoError, AttemptCancelled, now); return; }
      ConsumeRequest(request);
      End(Completed, NoError, AttemptCompleted, now);
    }

    method Heartbeat(cfg: Settings, workerId: Id, now: Time)
      modifies this
      ensures View() == HeartbeatRow(cfg, old(View()), workerId, now)
    {
      if status.Terminal() || worker != Some(workerId) { return; }
      heartbeatAt := Some(now);
      leaseExpiresAt := Some(now + cfg.leaseSeconds);
    }

    method Cancel(now: Time)
      modifies this
      ensures View() == CancelRow(old(View()), now)
    {
      if status.Terminal() { return; }
      if status.Pending? || status.WaitingInput? {
        CancelNow(now);
      } else {
        cancelRequestedAt := Some(cancelRequestedAt.Or(now));
      }
    }

    method Resume(value: Option<Token>, now: Time) returns (problem: Option<ResumeError>)
      modifies this
      ensures problem == ResumeObjection(old(View()), value)
      ensures View() == ResumeRow(old(View()), value, now)
    {
      problem := InspectResume(value);
      if problem.Some? { return; }
      hide ResumeObjection;
      AddRequest(value.value);
      Reopen();
      DropLease();
      nextKind := Resumed;
      Requeue(now);
    }

    method AddRequest(value: Token)
      requires interrupt.Some?
      modifies this`resumes
      ensures resumes == old(resumes) + [ResumeRequest(interrupt.value.id, interrupt.value.callsHash, value,
                                                       Requested, None, None)]
    {
      resumes := resumes + [ResumeRequest(interrupt.value.id, interrupt.value.callsHash, value,
                                          Requested, None, None)];
    }

    method Reopen()
      modifies this`status, this`error, this`finishedAt, this`cancelRequestedAt
      ensures status == Pending && error == NoError && finishedAt == cancelRequestedAt == None
    {
      status := Pending;
      error := NoError;
      finishedAt, cancelRequestedAt := None, None;
    }

    method InspectResume(value: Option<Token>) returns (problem: Option<ResumeError>)
      ensures problem == ResumeObjection(View(), value)
      ensures problem.None? ==> interrupt.Some? && value.Some?
    {
      if !status.WaitingInput? { return Some(NotWaiting); }
      if value.None? { return Some(ValueRequired); }
      if interrupt.None? || interrupt.value.id == NO_ID { return Some(IdentityMissing); }
      if OpenResume(resumes).Some? { return Some(AlreadyPending); }
      if exists i | 0 <= i < |resumes| :: resumes[i].interruptId == interrupt.value.id {
        return Some(DuplicateInterrupt);
      }
      return None;
    }

    method Requeue(now: Time)
      modifies this`outbox
      ensures outbox == Some(RequeueOutbox(old(outbox), now))
    {
      if outbox.None? {
        outbox := Some(FreshOutbox(now));
      }
      outbox := Some(outbox.value.(status := Queued, availableAt := now, lockedBy := None, lockedUntil := None));
    }

    /** One row of the recovery beat's loop over unclaimed executions. */
    method ExpireIfUnclaimed(cfg: Settings, now: Time)
      modifies this
      ensures View() == ExpireUnclaimed(cfg, old(View()), now)
    {
      if NeverClaimedInTime(cfg, View(), now) {
        FailExecution(NeverClaimed, now);
      }
    }

    method Release(now: Time)
      modifies this`status, this`worker, this`claimedAt, this`heartbeatAt, this`leaseExpiresAt,
               this`nextKind, this`outbox
      ensures status == Pending && nextKind == Retry && worker == claimedAt == heartbeatAt == leaseExpiresAt == None
      ensures outbox == Some(RequeueOutbox(old(outbox), now))
    {
      status := Pending;
      DropLease();
      nextKind := Retry;
      Requeue(now);
    }

    /** One row of the recovery beat's loop over expired leases. */
    method RecoverIfExpired(cfg: Settings, now: Time) returns (requeued: bool)
      modifies this
      ensures View() == RecoverLease(cfg, old(View()), now)
      ensures requeued == Requeues(cfg, old(View()), now)
    {
      if !LeaseExpired(View(), now) { return false; }
      FinishAttempt(LeaseLost, now);
      if attemptCount >= cfg.maxAttempts {
        FailExecution(RetryLimitAfterExpiry, now);
        return false;
      }
      Release(now);
      return true;
    }

    method CancelNow(now: Time)
      modifies this`status, this`interrupt, this`finishedAt
      ensures status == Cancelled && finishedAt == Some(now) && interrupt == None
    {
      status := Cancelled;
      finishedAt := Some(now);
      interrupt := None;
    }

    /** One row of the loop that stops what a disabled user has in flight. */
    method Disable(now: Time)
      modifies this`status, this`error, this`interrupt, this`finishedAt, this`cancelRequestedAt, this`outbox
      ensures View() == DisableRow(old(View()), now)
    {
      if status.Terminal() { return; }
      if status.Running? {
        cancelRequestedAt := Some(cancelRequestedAt.Or(now));
      } else {
        CancelNow(now);
        error := UserDisabled;
        WithdrawOutboxRow();
      }
    }

    method Lock(dispatcher: Id, now: Time)
      requires outbox.Some? && Dispatchable(outbox.value, now)
      modifies this`outbox
      ensures View() == LockRow(old(View()), dispatcher, now)
    {
      outbox := Some(outbox.value.(status := Publishing, lockedBy := Some(dispatcher),
                                   lockedUntil := Some(now + LOCK_SECONDS)));
    }

    method MarkPublished(dispatcher: Id, now: Time)
      modifies this`outbox
      ensures View() == MarkPublishedRow(old(View()), dispatcher, now)
    {
      if outbox.None? || !outbox.value.status.Publishing? || outbox.value.lockedBy != Some(dispatcher) { return; }
      outbox := Some(outbox.value.(status := Published, publishedAt := Some(now),
                                   lockedBy := None, lockedUntil := None));
    }

    method MarkRetry(dispatcher: Id, now: Time)
      modifies this`outbox
      ensures View() == MarkRetryRow(old(View()), dispatcher, now)
    {
      if outbox.None? || !outbox.value.status.Publishing? || outbox.value.lockedBy != Some(dispatcher) { return; }
      var attempts := outbox.value.attempts + 1;
      outbox := Some(outbox.value.(attempts := attempts, status := Queued,
                                   availableAt := now + Backoff(attempts),
                                   lockedBy := None, lockedUntil := None));
    }
  }

  // ---------------------------------------------------------------- loops over tables

  ghost predicate Distinct(table: seq<ExecutionRecord>) {
    forall i, j | 0 <= i < j < |table| :: table[i] != table[j]
  }

  ghost function Views(table: seq<ExecutionRecord>): (rows: seq<Row>)
    reads table
    ensures |rows| == |table|
    ensures forall i | 0 <= i < |table| :: rows[i] == table[i].View()
  {
    if table == [] then [] else Views(table[..|table| - 1]) + [table[|table| - 1].View()]
  }

  /** The rows after the pass over unclaimed executions. */
  ghost function Expired(cfg: Settings, rows: seq<Row>, now: Time): (after: seq<Row>)
    ensures |after| == |rows|
    ensures forall i | 0 <= i < |rows| :: after[i] == ExpireUnclaimed(cfg, rows[i], now)
  {
    seq(|rows|, i requires 0 <= i < |rows| => ExpireUnclaimed(cfg, rows[i], now))
  }

  /** How many of the first `n` rows a recovery pass puts back into the queue. */
  ghost function Requeued(cfg: Settings, rows: seq<Row>, now: Time, n: nat): nat
    requires n <= |rows|
  {
    if n == 0 then 0
    else Requeued(cfg, rows, now, n - 1)
         + if Requeues(cfg, rows[n - 1], now) then 1 else 0
  }

  method ExpireUnclaimedExecutions(table: seq<ExecutionRecord>, cfg: Settings, now: Time)
    requires Distinct(table)
    modifies table
    ensures forall i | 0 <= i < |table| :: table[i].View() == ExpireUnclaimed(cfg, old(Views(table))[i], now)
  {
    hide ExpireUnclaimed;
    ghost var before := Views(table);
    for i := 0 to |table|
      invariant forall j | 0 <= j < |table| ::
                  table[j].View() == if j < i then ExpireUnclaimed(cfg, before[j], now) else before[j]
    {
      table[i].ExpireIfUnclaimed(cfg, now);
    }
  }

  method RecoverExpiredLeases(table: seq<ExecutionRecord>, cfg: Settings, now: Time) returns (recovered: nat)
    requires Distinct(table)
    modifies table
    ensures forall i | 0 <= i < |table| :: table[i].View() == RecoverLease(cfg, old(Views(table))[i], now)
    ensures recovered == Requeued(cfg, old(Views(table)), now, |table|)
  {
    hide RecoverLease, Requeues, ExecutionRecord.View;
    ghost var before := Views(table);
    recovered := 0;
    for i := 0 to |table|
      invariant forall j | 0 <= j < |table| ::
                  table[j].View() == if j < i then RecoverLease(cfg, before[j], now) else before[j]
      invariant recovered == Requeued(cfg, before, now, i)
    {
      var requeued := table[i].RecoverIfExpired(cfg, now);
      if requeued {
        recovered := recovered + 1;
      }
    }
  }

  /** recover_expired_executions over the rows no other transaction has locked. */
  method RecoverExpiredExecutions(table: seq<ExecutionRecord>, cfg: Settings, now: Time)
    returns (recovered: nat)
    requires Distinct(table)
    modifies table
    ensures forall i | 0 <= i < |table| ::
              table[i].View() == RecoverLease(cfg, ExpireUnclaimed(cfg, old(Views(table))[i], now), now)
    ensures recovered == Requeued(cfg, Expired(cfg, old(Views(table)), now), now, |table|)
  {
    hide RecoverLease, ExpireUnclaimed, Requeued;
    ghost var before := Views(table);
    ExpireUnclaimedExecutions(table, cfg, now);
    assert Views(table) == Expired(cfg, before, now);
    recovered := RecoverExpiredLeases(table, cfg, now);
  }

  /** _disable_user_runtime over the executions table. */
  method DisableUserRuntime(table: seq<ExecutionRecord>, user: Id, now: Time)
    requires Distinct(table)
    modifies table
    ensures forall i | 0 <= i < |table| ::
              table[i].View() == if table[i].user == user then DisableRow(old(Views(table))[i], now)
                                 else old(Views(table))[i]
  {
    hide DisableRow;
    ghost var before := Views(table);
    for i := 0 to |table|
      invariant forall j | 0 <= j < |table| ::
                  table[j].View() == if j < i && table[j].user == user then DisableRow(before[j], now) else before[j]
    {
      if table[i].user == user {
        table[i].Disable(now);
      }
    }
  }

  predicate Due(r: Row, now: Time) {
    r.outbox.Some? && Dispatchable(r.outbox.value, now)
  }

  /** The locking transaction of dispatch_once; returns the positions it will publish. */
  method LockBatch(table: seq<ExecutionRecord>, dispatcher: Id, now: Time, batchSize: nat)
    returns (deliveries: seq<nat>)
    requires Distinct(table)
    modifies table
    ensures |deliveries| <= batchSize
    ensures forall i | 0 <= i < |table| ::
              table[i].View() == if i in deliveries then LockRow(old(Views(table))[i], dispatcher, now)
                                 else old(Views(table))[i]
    ensures forall i | i in deliveries :: i < |table| && Due(old(Views(table))[i], now)
    ensures |deliveries| < batchSize ==>
              forall i | 0 <= i < |table| :: Due(old(Views(table))[i], now) ==> i in deliveries
  {
    hide LockRow;
    ghost var before := Views(table);
    deliveries := [];
    for i := 0 to |table|
      invariant |deliveries| <= batchSize
      invariant forall k | k in deliveries :: k < i && Due(before[k], now)
      invariant forall j | 0 <= j < |table| ::
                  table[j].View() == if j in deliveries then LockRow(before[j], dispatcher, now) else before[j]
      invariant |deliveries| < batchSize ==>
                  forall j | 0 <= j < i :: Due(before[j], now) ==> j in deliveries
    {
      if |deliveries| < batchSize && Due(table[i].View(), now) {
        table[i].Lock(dispatcher, now);
        deliveries := deliveries + [i];
      }
    }
  }
}
