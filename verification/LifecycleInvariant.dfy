/** The inductive invariant of the execution lifecycle, and that every action keeps it. */
module LifecycleInvariant {
  import opened Wrappers
  import opened Lifecycle
  import opened LifecycleSystem

  // ---------------------------------------------------------------- one row

  /** Attempts are numbered 1..attempt_count, the current one is the last, running means open. */
  ghost predicate LedgerOk(cfg: Settings, r: Row) {
    && |r.attempts| == r.attemptCount <= cfg.maxAttempts
    && r.currentAttempt == (if r.attemptCount == 0 then None else Some(r.attemptCount - 1))
    && forall i | 0 <= i < |r.attempts| ::
         && r.attempts[i].ordinal == i + 1
         && (r.attempts[i].finishedAt.None? <==> r.attempts[i].status.AttemptRunning?)
  }

  ghost predicate NoneOpen(resumes: seq<ResumeRequest>) {
    forall i | 0 <= i < |resumes| :: !resumes[i].Open()
  }

  /** Only the newest resume request can be open, and each interrupt has at most one request. */
  ghost predicate ResumesOk(resumes: seq<ResumeRequest>) {
    && (forall i | 0 <= i < |resumes| - 1 :: !resumes[i].Open())
    && forall i, j | 0 <= i < j < |resumes| :: resumes[i].interruptId != resumes[j].interruptId
  }

  ghost predicate AwaitsAnswer(r: Row) {
    r.status.WaitingInput? && NoneOpen(r.resumes)
  }

  predicate Unclaimed(r: Row) {
    && r.status.Pending? && r.worker.None? && r.leaseExpiresAt.None? && r.claimedAt.None?
    && r.outbox.Some? && !r.outbox.value.status.Withdrawn?
  }

  ghost predicate AwaitsWorker(r: Row) {
    Unclaimed(r) && (r.outbox.value.status.Publishing? ==> r.outbox.value.lockedUntil.Some?)
  }

  ghost predicate Leased(r: Row) {
    && (r.status.Pending? || r.status.Running?)
    && r.worker.Some? && r.leaseExpiresAt.Some? && r.claimedAt.Some? && r.attemptCount > 0
  }

  /** Every execution is finished, waits for its user, waits for a worker, or is leased by one. */
  ghost predicate Accounted(r: Row) {
    r.status.Terminal() || AwaitsAnswer(r) || AwaitsWorker(r) || Leased(r)
  }

  ghost predicate RowOk(cfg: Settings, r: Row) {
    && LedgerOk(cfg, r) && ResumesOk(r.resumes) && Accounted(r)
    && (r.cancelRequestedAt.Some? ==> !r.status.WaitingInput? && !r.status.Completed?)
  }

  // ---------------------------------------------------------------- how a row may change

  ghost predicate AttemptKept(a: Attempt, b: Attempt) {
    && a.ordinal == b.ordinal && a.kind == b.kind && a.worker == b.worker && a.startedAt == b.startedAt
    && (a.finishedAt.Some? ==> a == b)
  }

  function Rank(s: ResumeStatus): nat {
    match s case Requested => 0 case Claimed => 1 case Consumed => 2
  }

  ghost predicate RequestKept(a: ResumeRequest, b: ResumeRequest) {
    && a.interruptId == b.interruptId && a.callsHash == b.callsHash && a.value == b.value
    && Rank(a.status) <= Rank(b.status)
  }

  ghost predicate SameTurn(r: Row, r': Row) {
    r.session == r'.session && r.user == r'.user && r.key == r'.key && r.createdAt == r'.createdAt
  }

  /** What no transaction may undo. A finished execution only has its outbox row change. */
  ghost predicate Evolves(r: Row, r': Row) {
    && SameTurn(r, r')
    && (r.status.Terminal() ==> r' == r.(outbox := r'.outbox))
    && |r.attempts| <= |r'.attempts|
    && (forall i | 0 <= i < |r.attempts| :: AttemptKept(r.attempts[i], r'.attempts[i]))
    && |r.resumes| <= |r'.resumes|
    && (forall i | 0 <= i < |r.resumes| :: RequestKept(r.resumes[i], r'.resumes[i]))
    && (r.cancelRequestedAt.Some? ==> r'.cancelRequestedAt == r.cancelRequestedAt)
  }

  lemma EvolvesTransitive(a: Row, b: Row, c: Row)
    requires Evolves(a, b) && Evolves(b, c)
    ensures Evolves(a, c)
  {
    forall i | 0 <= i < |a.attempts| ensures AttemptKept(a.attempts[i], c.attempts[i]) {
      assert AttemptKept(a.attempts[i], b.attempts[i]) && AttemptKept(b.attempts[i], c.attempts[i]);
    }
    forall i | 0 <= i < |a.resumes| ensures RequestKept(a.resumes[i], c.resumes[i]) {
      assert RequestKept(a.resumes[i], b.resumes[i]) && RequestKept(b.resumes[i], c.resumes[i]);
    }
  }

  /** The row keeps what its worker relies on, or ends without having been running. */
  ghost predicate Quiet(r: Row, r': Row) {
    && r'.worker == r.worker
    && (|| (r'.status.Terminal() && !r.status.Running?)
        || (r'.status == r.status && r'.leaseExpiresAt == r.leaseExpiresAt
            && r'.resumes == r.resumes && r'.session == r.session))
  }

  predicate LeaseFree(r: Row, now: Time) {
    r.leaseExpiresAt.None? || r.leaseExpiresAt.value <= now
  }

  /** A row transaction that names no worker but `who` anew. */
  ghost predicate RowStep(cfg: Settings, r: Row, r': Row, who: Option<Id> := None) {
    RowOk(cfg, r') && Evolves(r, r') && (r'.worker.Some? ==> r'.worker == r.worker || r'.worker == who)
  }

  // ---------------------------------------------------------------- row transactions

  lemma {:induction false} OpenResumeIsLast(resumes: seq<ResumeRequest>)
    requires ResumesOk(resumes)
    ensures OpenResume(resumes).Some? ==> OpenResume(resumes).value == |resumes| - 1
    ensures OpenResume(resumes).None? <==> NoneOpen(resumes)
  {
  }

  lemma GrantKeepsRow(cfg: Settings, r: Row, w: Id, now: Time)
    requires RowOk(cfg, r) && !r.status.Terminal() && r.attemptCount < cfg.maxAttempts
    ensures RowStep(cfg, r, GrantedRow(cfg, r, w, now), Some(w))
  {
    OpenResumeIsLast(r.resumes);
    var r' := GrantedRow(cfg, r, w, now);
    assert LedgerOk(cfg, r');
    assert ResumesOk(r'.resumes);
    assert Leased(r');
  }

  lemma RefusalKeepsRow(cfg: Settings, r: Row, reason: Failure, now: Time)
    requires RowOk(cfg, r) && !r.status.Terminal()
    ensures RowStep(cfg, r, FailRow(r, reason, now)) && RowStep(cfg, r, CancelDisabledRow(r, now))
  {
  }

  lemma ClaimKeepsRow(cfg: Settings, r: Row, w: Id, now: Time, context: ClaimContext, active: bool,
                      view: CheckpointView)
    requires RowOk(cfg, r)
    ensures RowStep(cfg, r, ClaimRow(cfg, r, w, now, context, active, view).0, Some(w))
    ensures ClaimRow(cfg, r, w, now, context, active, view).1.Refused?
            ==> var r' := ClaimRow(cfg, r, w, now, context, active, view).0;
                r' == r || (r'.status.Terminal() && r'.worker == r.worker && LeaseFree(r, now))
  {
    SameRow(cfg, r);
    hide RowOk, Evolves, CheckpointObjection, GrantedRow, Grant;
    if !r.status.Terminal() && LeaseFree(r, now) {
      forall reason
        ensures RowStep(cfg, r, FailRow(r, reason, now)) && RowStep(cfg, r, CancelDisabledRow(r, now))
      {
        RefusalKeepsRow(cfg, r, reason, now);
      }
      if r.attemptCount < cfg.maxAttempts {
        GrantKeepsRow(cfg, r, w, now);
      }
    }
  }

  lemma SameRow(cfg: Settings, r: Row)
    requires RowOk(cfg, r)
    ensures RowStep(cfg, r, r) && Quiet(r, r)
  {
  }

  lemma EndKeepsRow(cfg: Settings, r: Row, status: RunStatus, error: Failure, attempt: AttemptStatus, now: Time)
    requires RowOk(cfg, r) && !r.status.Terminal()
    requires status.Terminal() && !attempt.AttemptRunning?
    requires status.Completed? ==> r.cancelRequestedAt.None?
    ensures RowStep(cfg, r, EndRow(r, status, error, attempt, now))
  {
  }

  lemma StartKeepsRow(cfg: Settings, r: Row, now: Time)
    requires RowOk(cfg, r) && (r.status.Terminal() || Leased(r))
    ensures RowStep(cfg, r, StartGate(cfg, r, now).0)
  {
    if StartGate(cfg, r, now).1.StoppedByCancel? {
      EndKeepsRow(cfg, r, Cancelled, NoError, AttemptCancelled, now);
    }
  }

  /** The request a worker carries is the open one, or there is none open. */
  ghost predicate CarriesOpenRequest(r: Row, request: Option<nat>) {
    match request
    case None => NoneOpen(r.resumes)
    case Some(k) => k == |r.resumes| - 1 && r.resumes[k].status.Claimed?
  }

  lemma SuspendKeepsRow(cfg: Settings, r: Row, w: Id, request: Option<nat>, raised: Interrupt, now: Time)
    requires RowOk(cfg, r) && Leased(r) && CarriesOpenRequest(r, request)
    ensures RowStep(cfg, r, SuspendRow(r, w, request, raised, now))
  {
    if FenceOf(r, w).CancelWanted? {
      EndKeepsRow(cfg, r, Cancelled, NoError, AttemptCancelled, now);
    }
  }

  lemma FinishKeepsRow(cfg: Settings, r: Row, w: Id, request: Option<nat>, now: Time)
    requires RowOk(cfg, r) && Leased(r) && CarriesOpenRequest(r, request)
    ensures RowStep(cfg, r, FinishRow(r, w, request, now))
    ensures r.worker == Some(w) ==> FinishRow(r, w, request, now).status.Terminal()
  {
    if FenceOf(r, w).CancelWanted? {
      EndKeepsRow(cfg, r, Cancelled, NoError, AttemptCancelled, now);
    }
  }

  lemma HeartbeatKeepsRow(cfg: Settings, r: Row, w: Id, now: Time)
    requires RowOk(cfg, r)
    ensures RowStep(cfg, r, HeartbeatRow(cfg, r, w, now))
  {
  }

  lemma CancelKeepsRow(cfg: Settings, r: Row, now: Time)
    requires RowOk(cfg, r)
    ensures RowStep(cfg, r, CancelRow(r, now)) && Quiet(r, CancelRow(r, now))
  {
  }

  lemma DisableKeepsRow(cfg: Settings, r: Row, now: Time)
    requires RowOk(cfg, r)
    ensures RowStep(cfg, r, DisableRow(r, now)) && Quiet(r, DisableRow(r, now))
  {
  }

  lemma ResumeKeepsRow(cfg: Settings, r: Row, value: Option<Token>, now: Time)
    requires RowOk(cfg, r)
    ensures RowStep(cfg, r, ResumeRow(r, value, now))
    ensures ResumeObjection(r, value).None? ==>
              var r' := ResumeRow(r, value, now);
              && AwaitsWorker(r') && |r'.resumes| == |r.resumes| + 1
              && forall i | 0 <= i < |r'.resumes| :: r'.resumes[i].Open() <==> i == |r.resumes|
  {
  }

  lemma ExpireKeepsRow(cfg: Settings, r: Row, now: Time)
    requires RowOk(cfg, r)
    ensures RowStep(cfg, r, ExpireUnclaimed(cfg, r, now)) && Quiet(r, ExpireUnclaimed(cfg, r, now))
  {
  }

  lemma CloseKeepsAttempts(cfg: Settings, r: Row, status: AttemptStatus, now: Time)
    requires LedgerOk(cfg, r) && !status.AttemptRunning?
    ensures LedgerOk(cfg, r.(attempts := CloseAttempt(r, status, now)))
    ensures |CloseAttempt(r, status, now)| == |r.attempts|
    ensures forall i | 0 <= i < |r.attempts| :: AttemptKept(r.attempts[i], CloseAttempt(r, status, now)[i])
  {
  }

  lemma RecoverKeepsRow(cfg: Settings, r: Row, now: Time)
    requires RowOk(cfg, r)
    ensures RowStep(cfg, r, RecoverLease(cfg, r, now))
    ensures LeaseExpired(r, now) ==>
              var r' := RecoverLease(cfg, r, now);
              && (if r.attemptCount < cfg.maxAttempts then AwaitsWorker(r') else r'.status.Failed?)
              && r'.attempts == CloseAttempt(r, LeaseLost, now)
  {
    CloseKeepsAttempts(cfg, r, LeaseLost, now);
    hide CloseAttempt, AttemptKept;
    if !LeaseExpired(r, now) {
      SameAttempts(r);
    }
  }

  lemma SameAttempts(r: Row)
    ensures forall i | 0 <= i < |r.attempts| :: AttemptKept(r.attempts[i], r.attempts[i])
  {
  }

  lemma LockKeepsRow(cfg: Settings, r: Row, d: Id, now: Time)
    requires RowOk(cfg, r)
    ensures RowStep(cfg, r, LockRow(r, d, now)) && Quiet(r, LockRow(r, d, now))
  {
  }

  lemma PublishKeepsRow(cfg: Settings, r: Row, d: Id, now: Time)
    requires RowOk(cfg, r)
    ensures RowStep(cfg, r, MarkPublishedRow(r, d, now)) && Quiet(r, MarkPublishedRow(r, d, now))
  {
  }

  lemma RetryKeepsRow(cfg: Settings, r: Row, d: Id, now: Time)
    requires RowOk(cfg, r)
    ensures RowStep(cfg, r, MarkRetryRow(r, d, now)) && Quiet(r, MarkRetryRow(r, d, now))
  {
  }

  // ---------------------------------------------------------------- the whole store

  ghost predicate AtMostOnePending(pending: map<Id, Digest>) {
    forall i, j | i in pending && j in pending :: i == j
  }

  ghost predicate OnlyPending(pending: map<Id, Digest>, interrupt: Id) {
    interrupt in pending && forall i | i in pending :: i == interrupt
  }

  /** What holds of a leased row while the worker named in it is alive. */
  ghost predicate RunAgrees(s: System, w: Id, run: WorkerRun, r: Row) {
    && r.leaseExpiresAt == Some(run.leaseUntil)
    && r.status == (if run.phase.Starting? then Pending else Running)
    && CarriesOpenRequest(r, run.resume)
    && (run.answer.Some? ==>
          && run.resume.Some? && run.suspended.None?
          && r.resumes[run.resume.value].value == run.answer.value
          && (r.session in s.threads ==>
                OnlyPending(s.threads[r.session], r.resumes[run.resume.value].interruptId)))
  }

  ghost predicate RunOk(s: System, w: Id) {
    w in s.runs ==>
      var run := s.runs[w];
      && w in s.used && run.exec in s.rows
      && var r := s.rows[run.exec];
         && (run.phase.Active() && !r.status.Terminal() && r.worker == Some(w) ==> RunAgrees(s, w, run, r))
         && (run.phase.Active() && s.now < run.leaseUntil ==> r.worker == Some(w))
         && (run.phase.Working? && s.now < run.leaseUntil ==> !r.status.Terminal())
  }

  ghost predicate OneBusyPerSession(s: System) {
    forall a, b | a in s.rows && b in s.rows && s.rows[a].status.Busy() && s.rows[b].status.Busy()
                  && s.rows[a].session == s.rows[b].session :: a == b
  }

  ghost predicate OneTurnPerKey(s: System) {
    forall a, b | a in s.rows && b in s.rows && s.rows[a].key.Some? && s.rows[a].key == s.rows[b].key
                  && s.rows[a].session == s.rows[b].session :: a == b
  }

  ghost predicate Answered(r: Row, interrupt: Id, value: Token) {
    exists k | 0 <= k < |r.resumes| :: r.resumes[k].interruptId == interrupt && r.resumes[k].value == value
  }

  ghost predicate AnswersOk(s: System) {
    forall n | 0 <= n < |s.answers| ::
      s.answers[n].exec in s.rows
      && Answered(s.rows[s.answers[n].exec], s.answers[n].interrupt, s.answers[n].value)
  }

  ghost predicate RowsOk(cfg: Settings, s: System) {
    forall id | id in s.rows ::
      && RowOk(cfg, s.rows[id])
      && (s.rows[id].worker.Some? ==> s.rows[id].worker.value in s.used)
  }

  ghost predicate Inv(cfg: Settings, s: System) {
    && RowsOk(cfg, s) && OneBusyPerSession(s) && OneTurnPerKey(s) && AnswersOk(s)
    && (forall w :: RunOk(s, w))
    && (forall t | t in s.threads :: AtMostOnePending(s.threads[t]))
  }

  /** Every row keeps existing and evolves; the records of answers and deleted checkpoints only grow. */
  ghost predicate StoreEvolves(s: System, s': System) {
    && (forall id | id in s.rows :: id in s'.rows && Evolves(s.rows[id], s'.rows[id]))
    && s.answers <= s'.answers && s.cleared <= s'.cleared
  }
}
