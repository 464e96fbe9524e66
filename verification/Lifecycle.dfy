/**
 The rows of one agent execution and the effect of every transaction on them.

 A `Row` bundles what the database keeps for one execution: the execution itself, its
 attempts, its "execute" outbox row and its resume requests. Each function below is the
 specification of one transaction; class `ExecutionRecord` performs them in place.
 */
module Lifecycle {
  import opened Wrappers

  /** Identifiers and stored values are compared for equality only. */
  type Token = nat
  type Id = Token
  type Time = nat

  /** The empty identifier. */
  const NO_ID: Id := 0

  /** A stored hash of tool calls, with the length of its text. */
  datatype Digest = Digest(code: Token, length: nat)

  datatype Settings = Settings(maxAttempts: nat, leaseSeconds: nat, claimTimeout: nat)

  datatype RunStatus = Pending | Running | WaitingInput | Completed | Failed | Cancelled {
    predicate Terminal() {
      Completed? || Failed? || Cancelled?
    }
    predicate Busy() {
      Pending? || Running? || WaitingInput?
    }
  }

  datatype AttemptKind = Initial | Resumed | Retry
  datatype AttemptStatus =
    AttemptRunning | AttemptWaiting | AttemptCompleted | AttemptFailed | AttemptCancelled | LeaseLost
  datatype Attempt = Attempt(
    ordinal: nat, kind: AttemptKind, worker: Id, status: AttemptStatus,
    startedAt: Time, finishedAt: Option<Time>)

  datatype OutboxStatus = Queued | Publishing | Published | Withdrawn
  datatype Outbox = Outbox(
    status: OutboxStatus, attempts: nat, availableAt: Time,
    lockedBy: Option<Id>, lockedUntil: Option<Time>, publishedAt: Option<Time>)

  datatype ResumeStatus = Requested | Claimed | Consumed
  datatype ResumeRequest = ResumeRequest(
    interruptId: Id, callsHash: Digest, value: Token,
    status: ResumeStatus, claimedBy: Option<Id>, claimedAt: Option<Time>)
  {
    predicate Open() {
      !status.Consumed?
    }
  }

  /** What a suspended graph stores: the first interrupt's id and the hash of its tool calls. */
  datatype Interrupt = Interrupt(id: Id, callsHash: Digest)

  datatype Failure =
    | NoError | RetryLimit | ContextIncomplete | AgentMismatch | UserDisabled
    | CheckpointUnreadable | InterruptMismatch | ToolCallMismatch | RecoveryLookupFailed
    | NeverClaimed | RetryLimitAfterExpiry | RuntimeFailure

  datatype Row = Row(
    session: Id, user: Id, key: Option<Token>, createdAt: Time,
    status: RunStatus, error: Failure, interrupt: Option<Interrupt>,
    startedAt: Option<Time>, finishedAt: Option<Time>, cancelRequestedAt: Option<Time>,
    claimedAt: Option<Time>, heartbeatAt: Option<Time>, leaseExpiresAt: Option<Time>,
    worker: Option<Id>, attemptCount: nat, nextKind: AttemptKind, currentAttempt: Option<nat>,
    attempts: seq<Attempt>, outbox: Option<Outbox>, resumes: seq<ResumeRequest>)

  // ---------------------------------------------------------------- creation

  function FreshOutbox(now: Time): Outbox {
    Outbox(Queued, 0, now, None, None, None)
  }

  function NewRow(session: Id, user: Id, key: Option<Token>, now: Time): Row {
    Row(session, user, key, now, Pending, NoError, None, None, None, None, None, None, None,
        None, 0, Initial, None, [], Some(FreshOutbox(now)), [])
  }

  // ---------------------------------------------------------------- claim

  /** Result of joining the execution with its invocation, chat session and agent version. */
  datatype ClaimContext = ContextFound | ContextMissing | ContextMismatch

  /** What the checkpoint store answers for a thread: interrupt ids still pending, with hashes. */
  datatype CheckpointView = Unreadable | NoCheckpoint | Saved(pending: map<Id, Digest>)

  datatype ClaimOutcome =
    | Refused
    | Granted(resume: Option<nat>, answer: Option<Token>, fromCheckpoint: bool)

  function PendingInterrupts(view: CheckpointView): map<Id, Digest> {
    if view.Saved? then view.pending else map[]
  }

  /** The newest open resume request, as `order_by(created_at.desc()).first()` selects it. */
  function OpenResume(resumes: seq<ResumeRequest>): (k: Option<nat>)
    ensures k.Some? ==> k.value < |resumes| && resumes[k.value].Open()
    ensures k.None? ==> forall i | 0 <= i < |resumes| :: !resumes[i].Open()
  {
    if resumes == [] then None
    else if resumes[|resumes| - 1].Open() then Some(|resumes| - 1)
    else OpenResume(resumes[..|resumes| - 1])
  }

  function FailRow(r: Row, error: Failure, now: Time): Row {
    r.(status := Failed, error := error, finishedAt := Some(now))
  }

  function WithdrawOutbox(outbox: Option<Outbox>): Option<Outbox> {
    if outbox.Some? then Some(outbox.value.(status := Withdrawn)) else None
  }

  function CancelDisabledRow(r: Row, now: Time): Row {
    r.(status := Cancelled, error := UserDisabled, finishedAt := Some(now),
       outbox := WithdrawOutbox(r.outbox))
  }

  /** The reason a claim is refused with a failure because of the checkpoint, if any. */
  function CheckpointObjection(r: Row, view: CheckpointView): Option<Failure> {
    var open := OpenResume(r.resumes);
    if open.Some? then
      var request := r.resumes[open.value];
      var pending := PendingInterrupts(view);
      if view.Unreadable? then Some(CheckpointUnreadable)
      else if pending.Keys != {} && request.interruptId !in pending then Some(InterruptMismatch)
      else if pending.Keys != {} && request.callsHash.length == 64
              && pending[request.interruptId] != request.callsHash then Some(ToolCallMismatch)
      else None
    else if r.attemptCount > 0 && view.Unreadable? then Some(RecoveryLookupFailed)
    else None
  }

  function ClaimedResumes(resumes: seq<ResumeRequest>, worker: Id, now: Time): seq<ResumeRequest> {
    var open := OpenResume(resumes);
    if open.None? then resumes
    else resumes[open.value := resumes[open.value].(
                   status := Claimed, claimedBy := Some(worker), claimedAt := Some(now))]
  }

  function GrantedRow(cfg: Settings, r: Row, worker: Id, now: Time): Row {
    r.(worker := Some(worker), status := Pending, attemptCount := r.attemptCount + 1,
       attempts := r.attempts
                   + [Attempt(r.attemptCount + 1, r.nextKind, worker, AttemptRunning, now, None)],
       currentAttempt := Some(|r.attempts|),
       claimedAt := Some(now), heartbeatAt := Some(now),
       leaseExpiresAt := Some(now + cfg.leaseSeconds),
       resumes := ClaimedResumes(r.resumes, worker, now))
  }

  /** The resume value is handed over only while the checkpoint still shows an interrupt. */
  function Grant(r: Row, view: CheckpointView): (outcome: ClaimOutcome)
    ensures outcome.Granted?
  {
    var open := OpenResume(r.resumes);
    if open.Some? then
      if PendingInterrupts(view).Keys != {}
      then Granted(open, Some(r.resumes[open.value].value), false)
      else Granted(open, None, true)
    else Granted(None, None, r.attemptCount > 0 && view.Saved?)
  }

  function ClaimRow(cfg: Settings, r: Row, worker: Id, now: Time, context: ClaimContext,
                    userActive: bool, view: CheckpointView): (Row, ClaimOutcome)
  {
    if r.status.Terminal() then (r, Refused)
    else if r.leaseExpiresAt.Some? && r.leaseExpiresAt.value > now then (r, Refused)
    else if r.attemptCount >= cfg.maxAttempts then (FailRow(r, RetryLimit, now), Refused)
    else if context.ContextMissing? then (FailRow(r, ContextIncomplete, now), Refused)
    else if context.ContextMismatch? then (FailRow(r, AgentMismatch, now), Refused)
    else if !userActive then (CancelDisabledRow(r, now), Refused)
    else
      var objection := CheckpointObjection(r, view);
      if objection.Some? then (FailRow(r, objection.value, now), Refused)
      else (GrantedRow(cfg, r, worker, now), Grant(r, view))
  }

  // ---------------------------------------------------------------- the runner

  function CloseAttempt(r: Row, status: AttemptStatus, now: Time): seq<Attempt> {
    if r.currentAttempt.Some? && r.currentAttempt.value < |r.attempts|
       && r.attempts[r.currentAttempt.value].finishedAt.None?
    then r.attempts[r.currentAttempt.value :=
                      r.attempts[r.currentAttempt.value].(status := status, finishedAt := Some(now))]
    else r.attempts
  }

  /** A terminal state committed by the runner, together with the attempt it closes. */
  function EndRow(r: Row, status: RunStatus, error: Failure, attempt: AttemptStatus, now: Time): Row {
    r.(status := status, error := error, interrupt := None,
       finishedAt := Some(r.finishedAt.Or(now)), attempts := CloseAttempt(r, attempt, now))
  }

  function CancelledRow(r: Row, now: Time): Row {
    EndRow(r, Cancelled, NoError, AttemptCancelled, now)
  }

  function FailedRow(r: Row, now: Time): Row {
    EndRow(r, Failed, RuntimeFailure, AttemptFailed, now)
  }

  datatype Fence = Pass | LostLease | CancelWanted

  function FenceOf(r: Row, worker: Id): Fence {
    if r.worker != Some(worker) then LostLease
    else if r.cancelRequestedAt.Some? then CancelWanted
    else Pass
  }

  datatype GateOutcome = Skipped | Started | StoppedByCancel

  function StartGate(cfg: Settings, r: Row, now: Time): (Row, GateOutcome) {
    if r.status.Terminal() then (r, Skipped)
    else if r.status.Running? && r.heartbeatAt.Some? && r.heartbeatAt.value + cfg.leaseSeconds > now
    then (r, Skipped)
    else if r.cancelRequestedAt.Some? then (CancelledRow(r, now), StoppedByCancel)
    else (r.(claimedAt := Some(r.claimedAt.Or(now)), heartbeatAt := Some(now), status := Running,
             error := NoError, interrupt := None, startedAt := Some(r.startedAt.Or(now)),
             nextKind := Retry), Started)
  }

  function ConsumeResume(resumes: seq<ResumeRequest>, request: Option<nat>): seq<ResumeRequest> {
    if request.Some? && request.value < |resumes|
    then resumes[request.value := resumes[request.value].(status := Consumed)]
    else resumes
  }

  /** The commits of a suspension, without the fence before them. */
  function WaitingRow(r: Row, request: Option<nat>, interrupt: Interrupt, now: Time): Row {
    r.(resumes := ConsumeResume(r.resumes, request), interrupt := Some(interrupt),
       status := WaitingInput, error := NoError, attempts := CloseAttempt(r, AttemptWaiting, now))
  }

  function SuspendRow(r: Row, worker: Id, request: Option<nat>, interrupt: Interrupt, now: Time): Row {
    match FenceOf(r, worker)
    case LostLease => r
    case CancelWanted => CancelledRow(r, now)
    case Pass => WaitingRow(r, request, interrupt, now)
  }

  function FinishRow(r: Row, worker: Id, request: Option<nat>, now: Time): Row {
    match FenceOf(r, worker)
    case LostLease => r
    case CancelWanted => CancelledRow(r, now)
    case Pass =>
      EndRow(r.(resumes := ConsumeResume(r.resumes, request)), Completed, NoError, AttemptCompleted, now)
  }

  function HeartbeatRow(cfg: Settings, r: Row, worker: Id, now: Time): Row {
    if r.status.Terminal() || r.worker != Some(worker) then r
    else r.(heartbeatAt := Some(now), leaseExpiresAt := Some(now + cfg.leaseSeconds))
  }

  // ---------------------------------------------------------------- the API and the admin

  function CancelRow(r: Row, now: Time): Row {
    if r.status.Terminal() then r
    else if r.status.Pending? || r.status.WaitingInput?
    then r.(status := Cancelled, finishedAt := Some(now), interrupt := None)
    else r.(cancelRequestedAt := Some(r.cancelRequestedAt.Or(now)))
  }

  function DisableRow(r: Row, now: Time): Row {
    if r.status.Terminal() then r
    else if r.status.Running? then r.(cancelRequestedAt := Some(r.cancelRequestedAt.Or(now)))
    else r.(status := Cancelled, finishedAt := Some(now), interrupt := None, error := UserDisabled,
            outbox := WithdrawOutbox(r.outbox))
  }

  function RequeueOutbox(outbox: Option<Outbox>, now: Time): Outbox {
    outbox.Or(FreshOutbox(now)).(status := Queued, availableAt := now, lockedBy := None, lockedUntil := None)
  }

  datatype ResumeError = NotWaiting | ValueRequired | IdentityMissing | AlreadyPending | DuplicateInterrupt

  /** Why a resume call is rejected; the last case is the unique constraint on (execution, interrupt). */
  function ResumeObjection(r: Row, value: Option<Token>): Option<ResumeError> {
    if !r.status.WaitingInput? then Some(NotWaiting)
    else if value.None? then Some(ValueRequired)
    else if r.interrupt.None? || r.interrupt.value.id == NO_ID then Some(IdentityMissing)
    else if OpenResume(r.resumes).Some? then Some(AlreadyPending)
    else if exists i | 0 <= i < |r.resumes| :: r.resumes[i].interruptId == r.interrupt.value.id
    then Some(DuplicateInterrupt)
    else None
  }

  function ResumedRow(r: Row, value: Token, now: Time): Row
    requires r.interrupt.Some?
  {
    r.(resumes := r.resumes
                  + [ResumeRequest(r.interrupt.value.id, r.interrupt.value.callsHash, value,
                                   Requested, None, None)],
       status := Pending, error := NoError, finishedAt := None, cancelRequestedAt := None,
       worker := None, claimedAt := None, heartbeatAt := None, leaseExpiresAt := None,
       nextKind := Resumed, outbox := Some(RequeueOutbox(r.outbox, now)))
  }

  function ResumeRow(r: Row, value: Option<Token>, now: Time): Row {
    if ResumeObjection(r, value).Some? then r else ResumedRow(r, value.value, now)
  }

  // ---------------------------------------------------------------- recovery

  predicate NeverClaimedInTime(cfg: Settings, r: Row, now: Time) {
    && r.status.Pending? && r.claimedAt.None?
    && r.createdAt + cfg.claimTimeout < now
    && r.outbox.Some? && r.outbox.value.status.Published? && r.outbox.value.publishedAt.Some?
  }

  function ExpireUnclaimed(cfg: Settings, r: Row, now: Time): Row {
    if NeverClaimedInTime(cfg, r, now) then FailRow(r, NeverClaimed, now) else r
  }

  predicate LeaseExpired(r: Row, now: Time) {
    && (r.status.Pending? || r.status.Running?)
    && r.leaseExpiresAt.Some? && r.leaseExpiresAt.value < now
  }

  predicate Requeues(cfg: Settings, r: Row, now: Time) {
    LeaseExpired(r, now) && r.attemptCount < cfg.maxAttempts
  }

  function RecoverLease(cfg: Settings, r: Row, now: Time): Row {
    if !LeaseExpired(r, now) then r
    else
      var closed := r.(attempts := CloseAttempt(r, LeaseLost, now));
      if r.attemptCount >= cfg.maxAttempts then FailRow(closed, RetryLimitAfterExpiry, now)
      else closed.(status := Pending, worker := None, claimedAt := None, heartbeatAt := None,
                   leaseExpiresAt := None, nextKind := Retry,
                   outbox := Some(RequeueOutbox(r.outbox, now)))
  }

  // ---------------------------------------------------------------- the outbox dispatcher

  predicate Dispatchable(o: Outbox, now: Time) {
    && (o.status.Queued? || (o.status.Publishing? && o.lockedUntil.Some? && o.lockedUntil.value < now))
    && o.availableAt <= now
    && (o.lockedUntil.None? || o.lockedUntil.value < now)
  }

  const LOCK_SECONDS: nat := 30

  function LockRow(r: Row, dispatcher: Id, now: Time): Row {
    if r.outbox.Some? && Dispatchable(r.outbox.value, now)
    then r.(outbox := Some(r.outbox.value.(status := Publishing, lockedBy := Some(dispatcher),
                                           lockedUntil := Some(now + LOCK_SECONDS))))
    else r
  }

  predicate LockedBy(r: Row, dispatcher: Id) {
    r.outbox.Some? && r.outbox.value.status.Publishing? && r.outbox.value.lockedBy == Some(dispatcher)
  }

  function MarkPublishedRow(r: Row, dispatcher: Id, now: Time): Row {
    if LockedBy(r, dispatcher)
    then r.(outbox := Some(r.outbox.value.(status := Published, publishedAt := Some(now),
                                           lockedBy := None, lockedUntil := None)))
    else r
  }

  /** min(60, 2 ** min(attempts, 6)) seconds. */
  function Backoff(attempts: nat): nat {
    if attempts >= 6 then 60 else [1, 2, 4, 8, 16, 32][attempts]
  }

  function MarkRetryRow(r: Row, dispatcher: Id, now: Time): Row {
    if LockedBy(r, dispatcher)
    then
      var attempts := r.outbox.value.attempts + 1;
      r.(outbox := Some(r.outbox.value.(attempts := attempts, status := Queued,
                                        availableAt := now + Backoff(attempts),
                                        lockedBy := None, lockedUntil := None)))
    else r
  }
}
