/**
 When an answer of the user can be lost: exactly while a worker that finished an earlier turn of the session
 still has to delete the session's checkpoint. For a whole turn that is decided when the turn is created.
 */
module LifecycleAnswers {
  import opened Wrappers
  import opened Lifecycle
  import opened LifecycleSystem
  import opened LifecycleInvariant
  import opened LifecycleSteps
  import opened LifecycleHandover
  import opened LifecycleTheorems
  import opened LifecycleRaces

  ghost predicate CleanupDue(s: System, session: Id) {
    exists w :: OwesCleanup(s, w, session)
  }

  /** The recorded value of the request was handed to the graph for its own interrupt. */
  predicate Arrived(s: System, id: Id, k: nat)
    requires id in s.rows && k < |s.rows[id].resumes|
  {
    Answer(id, s.rows[id].resumes[k].interruptId, s.rows[id].resumes[k].value) in s.answers
  }

  /** The execution has used up an answer that no graph ever received. */
  ghost predicate LostAnswer(s: System, id: Id) {
    id in s.rows && exists k | 0 <= k < |s.rows[id].resumes| ::
      s.rows[id].resumes[k].status.Consumed? && !Arrived(s, id, k)
  }

  ghost predicate NothingCleared(s: System, id: Id) {
    forall i: Id :: (id, i) !in s.cleared
  }

  /** A worker that has the answer and has not handed it over; its execution goes on. */
  predicate Carries(s: System, w: Id) {
    && Known(s, w) && s.runs[w].phase.Active() && s.runs[w].answer.Some?
    && !s.rows[s.runs[w].exec].status.Terminal()
  }

  // ---------------------------------------------------------------- what one action does

  /** A worker newly owes a cleanup only by ending its execution. */
  ghost predicate OwesByCommit(s: System, s': System, w: Id) {
    w in s'.runs && s'.runs[w].phase.Finished? ==>
      || (w in s.runs && s.runs[w].phase.Finished? && s.runs[w].exec == s'.runs[w].exec)
      || (var id := s'.runs[w].exec;
          id in s.rows && id in s'.rows && s.rows[id].status.Busy() && s'.rows[id].status.Terminal())
  }

  /** Checkpoints are deleted, and deletions recorded, only by workers that owe a cleanup. */
  ghost predicate DeletesIfDue(s: System, s': System, session: Id) {
    !CleanupDue(s, session) ==>
      && (session in s.threads ==> session in s'.threads)
      && forall id: Id, i: Id | (id, i) in s'.cleared && id in s.rows && s.rows[id].session == session ::
           (id, i) in s.cleared
  }

  /** No worker but the new one gets an answer to hand over. */
  ghost predicate CarriesOn(s: System, s': System, w: Id) {
    w in s.used && w in s'.runs && s'.runs[w].phase.Active() && s'.runs[w].answer.Some? ==>
      w in s.runs && s.runs[w].phase.Active() && s.runs[w].answer.Some? && s.runs[w].exec == s'.runs[w].exec
  }

  ghost predicate Moves(s: System, s': System) {
    && s.used <= s'.used
    && (forall w: Id :: OwesByCommit(s, s', w) && CarriesOn(s, s', w))
    && (forall t: Id :: DeletesIfDue(s, s', t))
    && forall id: Id, i: Id | (id, i) in s'.cleared :: (id, i) in s.cleared || id in s.rows
  }

  /** The runs are the same, up to lost workers, and no checkpoint is deleted. */
  lemma SameRunsMove(s: System, s': System)
    requires forall w | w in s'.runs :: w in s.runs && s'.runs[w] == s.runs[w]
    requires s'.threads == s.threads && s'.cleared == s.cleared && s.used <= s'.used
    ensures Moves(s, s')
  {
  }

  /** One worker moves on, without a commit that leaves it a cleanup. */
  lemma OneRunMoves(s: System, s': System, w: Id, run': WorkerRun)
    requires s'.runs == s.runs[w := run'] && s.used <= s'.used && s'.cleared == s.cleared
    requires run'.phase.Finished? ==> w in s.runs && s.runs[w].phase.Finished? && s.runs[w].exec == run'.exec
    requires s.threads.Keys <= s'.threads.Keys
    requires w in s.used ==>
               && w in s.runs && run'.exec == s.runs[w].exec
               && (run'.phase.Active() ==> s.runs[w].phase.Active())
               && (run'.answer.Some? ==> s.runs[w].answer.Some?)
    ensures Moves(s, s')
  {
  }

  lemma ClaimMoves(cfg: Settings, s: System, id: Id, w: Id, context: ClaimContext, readable: bool)
    ensures Moves(s, ClaimStep(cfg, s, id, w, context, readable))
  {
    hide ClaimRow, Moves;
    var s' := ClaimStep(cfg, s, id, w, context, readable);
    if s'.runs == s.runs {
      SameRunsMove(s, s');
    } else {
      OneRunMoves(s, s', w, s'.runs[w]);
    }
  }

  lemma FinishMoves(cfg: Settings, s: System, w: Id)
    requires Inv(cfg, s)
    ensures Moves(s, FinishStep(s, w))
  {
    var s' := FinishStep(s, w);
    if s' != s && s'.runs[w].phase.Finished? {
      HolderIsNamed(cfg, s, w);
      hide Inv, RowOk, Leased, RunAgrees;
      assert s.rows[s.runs[w].exec].status.Busy() && s'.rows[s.runs[w].exec].status.Terminal() by {
        hide ConsumeResume, CloseAttempt;
      }
      hide FinishRow;
    } else if s' != s {
      assert RunOk(s, w);
      hide Moves, Inv, RunOk, FinishRow;
      OneRunMoves(s, s', w, s'.runs[w]);
    } else {
      hide Moves;
      SameRunsMove(s, s');
    }
  }

  lemma CleanupMoves(s: System, w: Id)
    ensures Moves(s, CleanupStep(s, w))
  {
    var s' := CleanupStep(s, w);
    if s' != s {
      assert OwesCleanup(s, w, Session(s, w));
      assert CleanupDue(s, Session(s, w));
    }
  }

  lemma WorkersMove(cfg: Settings, s: System, a: Action)
    requires Inv(cfg, s) && ByWorker(a)
    ensures Moves(s, Apply(cfg, s, a))
  {
    hide Moves, Inv, ClaimStep, StartStep, HeartbeatStep, SuspendStep, FinishStep, CleanupStep, FailStep;
    match a {
      case Claim(id, w, context, readable) => ClaimMoves(cfg, s, id, w, context, readable);
      case Start(w) => StartMoves(cfg, s, w);
      case Heartbeat(w) => HeartbeatMoves(cfg, s, w);
      case Suspend(w) => SuspendMoves(s, w);
      case Finish(w) => FinishMoves(cfg, s, w);
      case Cleanup(w) => CleanupMoves(s, w);
      case Fail(w) => FailMoves(s, w);
      case Crash(w) => SameRunsMove(s, Apply(cfg, s, a));
    }
  }

  lemma StartMoves(cfg: Settings, s: System, w: Id)
    ensures Moves(s, StartStep(cfg, s, w))
  {
    hide Moves, StartGate;
    var s' := StartStep(cfg, s, w);
    if HoldsLease(s, w) && s.runs[w].phase.Starting? {
      OneRunMoves(s, s', w, s'.runs[w]);
    } else {
      SameRunsMove(s, s');
    }
  }

  lemma HeartbeatMoves(cfg: Settings, s: System, w: Id)
    ensures Moves(s, HeartbeatStep(cfg, s, w))
  {
    hide Moves, HeartbeatRow;
    var s' := HeartbeatStep(cfg, s, w);
    if Known(s, w) && !s.rows[s.runs[w].exec].status.Terminal() && s.rows[s.runs[w].exec].worker == Some(w) {
      OneRunMoves(s, s', w, s'.runs[w]);
    } else {
      SameRunsMove(s, s');
    }
  }

  lemma SuspendMoves(s: System, w: Id)
    ensures Moves(s, SuspendStep(s, w))
  {
    hide Moves, SuspendRow;
    var s' := SuspendStep(s, w);
    if MayWork(s, w) && s.runs[w].suspended.Some? && s.runs[w].answer.None? {
      OneRunMoves(s, s', w, s'.runs[w]);
    } else {
      SameRunsMove(s, s');
    }
  }

  lemma FailMoves(s: System, w: Id)
    ensures Moves(s, FailStep(s, w))
  {
    hide Moves, FailedRow;
    var s' := FailStep(s, w);
    if HoldsLease(s, w) && s.runs[w].phase.Active() {
      OneRunMoves(s, s', w, s'.runs[w]);
    } else {
      SameRunsMove(s, s');
    }
  }

  /** The graph hands over or drops an answer. */
  lemma ReleaseMoves(s: System, w: Id, interrupt: Id)
    ensures Moves(s, AnswerStep(s, w, interrupt)) && Moves(s, DropStep(s, w))
  {
    hide Moves;
    SameRunsMove(s, s);
    if MayWork(s, w) {
      OneRunMoves(s, SetRun(s, w, s.runs[w].(answer := None)), w, s.runs[w].(answer := None));
      OneRunMoves(s, AnswerStep(s, w, interrupt), w, AnswerStep(s, w, interrupt).runs[w]);
    }
  }

  lemma SavedMoves(s: System, w: Id, raised: Interrupt)
    ensures Moves(s, SaveStep(s, w)) && Moves(s, RaiseStep(s, w, raised))
  {
    hide Moves;
    SameRunsMove(s, s);
    if MaySave(s, w) {
      OneRunMoves(s, SaveStep(s, w), w, SaveStep(s, w).runs[w]);
      OneRunMoves(s, RaiseStep(s, w, raised), w, RaiseStep(s, w, raised).runs[w]);
    }
  }

  lemma GraphsMove(cfg: Settings, s: System, a: Action)
    requires ByGraph(a)
    ensures Moves(s, Apply(cfg, s, a))
  {
    hide Moves, AnswerStep, DropStep, SaveStep, RaiseStep;
    match a {
      case GraphAnswer(w, i) => ReleaseMoves(s, w, i);
      case GraphDrop(w) => ReleaseMoves(s, w, 0);
      case GraphSave(w) => SavedMoves(s, w, Interrupt(0, Digest(0, 0)));
      case GraphSuspend(w, raised) => SavedMoves(s, w, raised);
    }
  }

  lemma OutboxMoves(s: System, d: Id, batch: set<Id>, id: Id)
    ensures Moves(s, LockStep(s, d, batch)) && Moves(s, PublishStep(s, d, id)) && Moves(s, RetryStep(s, d, id))
  {
    hide Moves, Idle, MarkPublishedRow, MarkRetryRow, LockRow, Dispatchable;
    SameRunsMove(s, LockStep(s, d, batch));
    SameRunsMove(s, PublishStep(s, d, id));
    SameRunsMove(s, RetryStep(s, d, id));
  }

  lemma MessagesMove(s: System, d: Id, id: Id)
    ensures Moves(s, SendStep(s, d, id)) && Moves(s, DispatcherDiesStep(s, d))
    ensures Moves(s, AcknowledgeStep(s, id)) && Moves(s, RedeliverStep(s, id))
  {
    hide Moves;
    SameRunsMove(s, SendStep(s, d, id));
    SameRunsMove(s, DispatcherDiesStep(s, d));
    SameRunsMove(s, AcknowledgeStep(s, id));
    SameRunsMove(s, RedeliverStep(s, id));
  }

  lemma BrokersMove(cfg: Settings, s: System, a: Action)
    requires ByBroker(a)
    ensures Moves(s, Apply(cfg, s, a))
  {
    hide Moves, LockStep, SendStep, PublishStep, RetryStep, DispatcherDiesStep, AcknowledgeStep, RedeliverStep;
    match a {
      case LockOutbox(d, batch) => OutboxMoves(s, d, batch, 0);
      case Send(d, id) => MessagesMove(s, d, id);
      case MarkPublished(d, id) => OutboxMoves(s, d, {}, id);
      case MarkRetry(d, id) => OutboxMoves(s, d, {}, id);
      case DispatcherDies(d) => MessagesMove(s, d, 0);
      case Acknowledge(id) => MessagesMove(s, 0, id);
      case Redeliver(id) => MessagesMove(s, 0, id);
    }
  }

  lemma ServicesMove(cfg: Settings, s: System, a: Action)
    requires !ByWorker(a) && !ByGraph(a) && !ByBroker(a)
    ensures Moves(s, Apply(cfg, s, a))
  {
    hide Moves, Replays, SessionBusy, CancelRow, ResumeRow, DisableRow, NewRow, ExpireUnclaimed, RecoverLease;
    SameRunsMove(s, Apply(cfg, s, a));
  }

  lemma ApplyMoves(cfg: Settings, s: System, a: Action)
    requires Inv(cfg, s)
    ensures Moves(s, Apply(cfg, s, a))
  {
    hide Moves, Inv, Apply;
    if ByWorker(a) {
      WorkersMove(cfg, s, a);
    } else if ByGraph(a) {
      GraphsMove(cfg, s, a);
    } else if ByBroker(a) {
      BrokersMove(cfg, s, a);
    } else {
      ServicesMove(cfg, s, a);
    }
  }

  // ---------------------------------------------------------------- no cleanup becomes due while a turn goes on

  lemma SessionsStay(s: System, s': System)
    requires StoreEvolves(s, s')
    ensures forall id | id in s.rows :: id in s'.rows && s'.rows[id].session == s.rows[id].session
                                        && (!s'.rows[id].status.Terminal() ==> !s.rows[id].status.Terminal())
  {
    hide AttemptKept, RequestKept;
    forall id | id in s.rows ensures Evolves(s.rows[id], s'.rows[id]) {
    }
  }

  /** Nobody else can finish a turn of the session while this one goes on. */
  lemma StaysUndue(s: System, s': System, id: Id)
    requires Moves(s, s') && StoreEvolves(s, s') && OneBusyPerSession(s)
    requires id in s.rows && id in s'.rows && !s'.rows[id].status.Terminal()
    requires forall w | w in s.runs :: s.runs[w].exec in s.rows
    requires !CleanupDue(s, s.rows[id].session)
    ensures !CleanupDue(s', s'.rows[id].session)
  {
    SessionsStay(s, s');
    hide StoreEvolves;
    var session := s.rows[id].session;
    forall w ensures !OwesCleanup(s', w, session) {
      assert OwesByCommit(s, s', w);
      assert !OwesCleanup(s, w, session);
    }
  }

  // ---------------------------------------------------------------- answers arrive

  ghost predicate Clean(s: System, id: Id) {
    && id in s.rows && !LostAnswer(s, id)
    && (!s.rows[id].status.Terminal() ==> NothingCleared(s, id) && !CleanupDue(s, s.rows[id].session))
  }

  /** Without deletions, what the invariant calls settled has arrived. */
  lemma SettledArrived(cfg: Settings, s: System, id: Id)
    requires Sound(cfg, s) && id in s.rows && NothingCleared(s, id)
    ensures !LostAnswer(s, id)
  {
    var r := s.rows[id];
    assert RowHanded(s, id) && RowOk(cfg, r);
    forall k | 0 <= k < |r.resumes| && r.resumes[k].status.Consumed? ensures Arrived(s, id, k) {
      assert Settled(s, id, r.resumes[k].interruptId);
      var n :| 0 <= n < |s.answers| && s.answers[n].exec == id && s.answers[n].interrupt == r.resumes[k].interruptId;
      assert Answered(r, s.answers[n].interrupt, s.answers[n].value);
    }
  }

  /** A finished execution uses up no more answers, and no record of an answer is forgotten. */
  lemma FinishedStays(s: System, s': System, id: Id)
    requires StoreEvolves(s, s') && id in s.rows && s.rows[id].status.Terminal() && !LostAnswer(s, id)
    ensures id in s'.rows && s'.rows[id].status.Terminal() && !LostAnswer(s', id)
  {
    assert Evolves(s.rows[id], s'.rows[id]);
    hide AttemptKept, RequestKept;
    forall k | 0 <= k < |s'.rows[id].resumes| && s'.rows[id].resumes[k].status.Consumed?
      ensures Arrived(s', id, k)
    {
      assert Arrived(s, id, k);
    }
  }

  lemma CleanStep(cfg: Settings, s: System, a: Action, id: Id)
    requires Sound(cfg, s) && Clean(s, id)
    ensures Clean(Apply(cfg, s, a), id)
  {
    var s' := Apply(cfg, s, a);
    ApplyKeeps(cfg, s, a);
    ApplyMoves(cfg, s, a);
    SoundStep(cfg, s, a);
    assert forall w | w in s.runs :: s.runs[w].exec in s.rows by {
      RunsAreKnown(cfg, s);
    }
    hide Apply, LostAnswer;
    assert Evolves(s.rows[id], s'.rows[id]);
    if s.rows[id].status.Terminal() {
      FinishedStays(s, s', id);
    } else {
      assert DeletesIfDue(s, s', s.rows[id].session);
      hide Sound, Moves, Inv, StoreEvolves, Evolves, CleanupDue, DeletesIfDue;
      assert NothingCleared(s', id);
      SettledArrived(cfg, s', id);
      if !s'.rows[id].status.Terminal() {
        StaysUndue(s, s', id);
      }
    }
  }

  lemma RunsAreKnown(cfg: Settings, s: System)
    requires Inv(cfg, s)
    ensures forall w | w in s.runs :: s.runs[w].exec in s.rows
  {
    assert forall w | w in s.runs :: RunOk(s, w);
    hide RunAgrees;
  }

  lemma {:induction false} RunClean(cfg: Settings, s: System, actions: seq<Action>, id: Id)
    requires Sound(cfg, s) && Clean(s, id)
    ensures Clean(Run(cfg, s, actions), id)
    decreases |actions|
  {
    hide Sound, Clean, Apply;
    if actions != [] {
      SoundStep(cfg, s, actions[0]);
      CleanStep(cfg, s, actions[0], id);
      RunClean(cfg, Apply(cfg, s, actions[0]), actions[1..], id);
    }
  }

  /**
   If nothing of the execution was lost or deleted so far and no cleanup is outstanding in its session, every
   answer it will ever use up has reached the graph, whatever happens.
   */
  lemma {:induction false} AnswersArrive(cfg: Settings, s: System, actions: seq<Action>, id: Id)
    requires Reachable(cfg, s) && id in s.rows && !LostAnswer(s, id)
    requires NothingCleared(s, id) && !CleanupDue(s, s.rows[id].session)
    ensures !LostAnswer(Run(cfg, s, actions), id)
  {
    ReachableInv(cfg, s);
    hide Sound, Reachable, LostAnswer, Run, NothingCleared, CleanupDue;
    RunClean(cfg, s, actions, id);
  }

  // ---------------------------------------------------------------- decided when the turn is created

  ghost predicate ClearedKnown(s: System) {
    forall id: Id, i: Id | (id, i) in s.cleared :: id in s.rows
  }

  lemma {:induction false} RunClears(cfg: Settings, s: System, actions: seq<Action>)
    requires Sound(cfg, s) && ClearedKnown(s)
    ensures ClearedKnown(Run(cfg, s, actions))
    decreases |actions|
  {
    if actions != [] {
      var s' := Apply(cfg, s, actions[0]);
      hide Apply, Inv, Evolves, OwesByCommit, CarriesOn, DeletesIfDue;
      ApplyKeeps(cfg, s, actions[0]);
      ApplyMoves(cfg, s, actions[0]);
      SoundStep(cfg, s, actions[0]);
      hide Sound;
      RunClears(cfg, s', actions[1..]);
    }
  }

  /** Some continuation uses up an answer of the execution that no graph received. */
  ghost predicate CanLoseAnswer(cfg: Settings, s: System, id: Id) {
    exists actions :: LostAnswer(Run(cfg, s, actions), id)
  }

  lemma NewTurnIsClean(cfg: Settings, s: System, id: Id, session: Id, user: Id, key: Option<Token>)
    requires Reachable(cfg, s) && id !in s.rows && !Replays(s, session, key) && !SessionBusy(s, session)
    ensures var s' := CreateStep(s, id, session, user, key);
            && Reachable(cfg, s') && id in s'.rows && s'.rows[id].session == session
            && !LostAnswer(s', id) && NothingCleared(s', id)
            && (CleanupDue(s', session) <==> CleanupDue(s, session))
  {
    hide Apply, Replays, SessionBusy, NewRow;
    EmptyIsSound(cfg);
    var actions :| Run(cfg, EMPTY_SYSTEM, actions) == s;
    RunClears(cfg, EMPTY_SYSTEM, actions);
    ReachableInv(cfg, s);
    NewRowIsEmpty(session, user, key, s.now);
    var s' := CreateStep(s, id, session, user, key);
    LeadsIsReachable(cfg, s);
    LeadsIsReachable(cfg, s');
    CreateLeads(cfg, s, id, session, user, key);
    hide Run, Leads, Reachable;
    RunsAreKnown(cfg, s);
    hide Sound;
    forall w ensures OwesCleanup(s', w, session) <==> OwesCleanup(s, w, session) {
    }
  }

  lemma NewRowIsEmpty(session: Id, user: Id, key: Option<Token>, now: Time)
    ensures NewRow(session, user, key, now).resumes == [] && NewRow(session, user, key, now).session == session
  {
  }

  lemma CreateLeads(cfg: Settings, s: System, id: Id, session: Id, user: Id, key: Option<Token>)
    requires Leads(cfg, EMPTY_SYSTEM, s)
    ensures Leads(cfg, EMPTY_SYSTEM, CreateStep(s, id, session, user, key))
  {
    hide Leads, CreateStep;
    LeadsNext(cfg, EMPTY_SYSTEM, s, CreateTurn(id, session, user, key));
  }

  lemma LossLeads(cfg: Settings, s: System, earlier: Id, w: Id)
    ensures Leads(cfg, s, FinishStep(DropStep(CleanupStep(s, earlier), w), w))
  {
    var cleaned := CleanupStep(s, earlier);
    LeadsNowhere(cfg, s);
    hide Leads, CleanupStep, DropStep, FinishStep;
    LeadsNext(cfg, s, s, Cleanup(earlier));
    LeadsNext(cfg, s, cleaned, GraphDrop(w));
    LeadsNext(cfg, s, DropStep(cleaned, w), Finish(w));
  }

  /** The race of a fresh turn ends with an answer that is used up and was never handed over. */
  lemma RaceLoses(cfg: Settings, s: System, earlier: Id, w: Id) returns (s': System)
    requires Inv(cfg, s) && CleanupPending(s, earlier, w)
    requires forall n | 0 <= n < |s.answers| :: s.answers[n].exec != s.runs[w].exec
    ensures Leads(cfg, s, s') && LostAnswer(s', s.runs[w].exec)
  {
    CleanupLosesAnswer(cfg, s, earlier, w);
    LossLeads(cfg, s, earlier, w);
    s' := FinishStep(DropStep(CleanupStep(s, earlier), w), w);
    hide Leads, Inv, CleanupStep, DropStep, FinishStep, FenceOf, OwesCleanup, AnswerStep;
    var k := s.runs[w].resume.value;
    assert s'.rows[s.runs[w].exec].resumes[k].status.Consumed? && !Arrived(s', s.runs[w].exec, k);
  }

  lemma DueTurnCanLose(cfg: Settings, s: System, id: Id, session: Id, user: Id, key: Option<Token>, earlier: Id)
    requires Reachable(cfg, s) && id !in s.rows && !Replays(s, session, key) && !SessionBusy(s, session)
    requires cfg.maxAttempts >= 2 && cfg.leaseSeconds > 0 && OwesCleanup(s, earlier, session)
    ensures CanLoseAnswer(cfg, CreateStep(s, id, session, user, key), id)
  {
    ReachableInv(cfg, s);
    assert RunOk(s, earlier);
    var created, ready := CreateStep(s, id, session, user, key), EnabledTurn(s, id, session, user, key);
    CreatedIsFresh(cfg, s, id, session, user, key);
    assert OwesCleanup(ready, earlier, ready.rows[id].session);
    assert forall n | 0 <= n < |s.answers| :: s.answers[n].exec != id;
    hide Run, Leads, FreshTurn, EnabledTurn, CreateStep, Sound, Inv, RunOk, CleanupPending, LostAnswer, OwesCleanup;
    var racing, w := RaceFollows(cfg, ready, id, earlier, 0);
    LeadsIsReachable(cfg, s);
    LeadsFurther(cfg, EMPTY_SYSTEM, s, ready);
    LeadsFurther(cfg, EMPTY_SYSTEM, ready, racing);
    LeadsIsReachable(cfg, racing);
    ReachableInv(cfg, racing);
    assert Inv(cfg, racing) by { SoundHasInv(cfg, racing); }
    var lost := RaceLoses(cfg, racing, earlier, w);
    LeadsFurther(cfg, created, ready, racing);
    LeadsFurther(cfg, created, racing, lost);
    LeadsCanLose(cfg, created, lost, id);
  }

  lemma SoundHasInv(cfg: Settings, s: System)
    requires Sound(cfg, s)
    ensures Inv(cfg, s)
  {
    hide Inv;
  }

  lemma LeadsCanLose(cfg: Settings, s: System, s': System, id: Id)
    requires Leads(cfg, s, s') && LostAnswer(s', id)
    ensures CanLoseAnswer(cfg, s, id)
  {
    hide Run, LostAnswer;
  }

  /**
   For a turn that is just being created: some continuation loses an answer of its user if and only if at this
   moment a worker that finished an earlier turn of the session has not deleted the checkpoint yet.
   */
  lemma NewTurnLosesExactly(cfg: Settings, s: System, id: Id, session: Id, user: Id, key: Option<Token>)
    requires Reachable(cfg, s) && id !in s.rows && !Replays(s, session, key) && !SessionBusy(s, session)
    requires cfg.maxAttempts >= 2 && cfg.leaseSeconds > 0
    ensures CanLoseAnswer(cfg, CreateStep(s, id, session, user, key), id) <==> CleanupDue(s, session)
  {
    hide Run, LostAnswer, CreateStep, Replays, SessionBusy, Reachable;
    if CleanupDue(s, session) {
      var earlier :| OwesCleanup(s, earlier, session);
      hide OwesCleanup;
      DueTurnCanLose(cfg, s, id, session, user, key, earlier);
    } else {
      var s' := CreateStep(s, id, session, user, key);
      NewTurnIsClean(cfg, s, id, session, user, key);
      hide CleanupDue;
      forall actions ensures !LostAnswer(Run(cfg, s', actions), id) {
        AnswersArrive(cfg, s', actions, id);
      }
    }
  }

  // ---------------------------------------------------------------- an answer on its way

  /** A worker has the answer, but the checkpoint it belongs to is gone. */
  predicate Stranded(s: System, w: Id) {
    Carries(s, w) && Session(s, w) !in s.threads
  }

  ghost predicate OnTheWay(s: System, w: Id) {
    w in s.used && (Carries(s, w) ==> Session(s, w) in s.threads && !CleanupDue(s, Session(s, w)))
  }

  lemma CarriesBack(s: System, s': System, w: Id)
    requires Moves(s, s') && StoreEvolves(s, s') && Carries(s', w) && w in s.used
    requires forall v | v in s.runs :: s.runs[v].exec in s.rows
    ensures Carries(s, w) && Session(s', w) == Session(s, w) && s'.runs[w].exec == s.runs[w].exec
  {
    SessionsStay(s, s');
    assert CarriesOn(s, s', w);
    hide StoreEvolves;
  }

  lemma OnTheWayStep(cfg: Settings, s: System, a: Action, w: Id)
    requires Inv(cfg, s) && OnTheWay(s, w)
    ensures OnTheWay(Apply(cfg, s, a), w)
  {
    var s' := Apply(cfg, s, a);
    ApplyKeeps(cfg, s, a);
    ApplyMoves(cfg, s, a);
    RunsAreKnown(cfg, s);
    hide Apply, RowsOk, OneTurnPerKey, AnswersOk, RunOk, AtMostOnePending, StoreEvolves, OneBusyPerSession, CleanupDue;
    if Carries(s', w) {
      CarriesBack(s, s', w);
      assert DeletesIfDue(s, s', Session(s, w));
      StaysUndue(s, s', s'.runs[w].exec);
    }
  }

  lemma {:induction false} StaysOnTheWay(cfg: Settings, s: System, actions: seq<Action>, w: Id)
    requires Inv(cfg, s) && OnTheWay(s, w)
    ensures OnTheWay(Run(cfg, s, actions), w)
    decreases |actions|
  {
    hide Inv, OnTheWay, Apply;
    if actions != [] {
      ApplyKeeps(cfg, s, actions[0]);
      OnTheWayStep(cfg, s, actions[0], w);
      StaysOnTheWay(cfg, Apply(cfg, s, actions[0]), actions[1..], w);
    }
  }

  lemma {:induction false} CleanupStrands(cfg: Settings, s: System, earlier: Id, w: Id)
    requires Carries(s, w) && OwesCleanup(s, earlier, Session(s, w))
    ensures Stranded(Run(cfg, s, [Cleanup(earlier)]), w)
  {
    RunOne(cfg, s, Cleanup(earlier));
    hide Run, ShownBy;
  }

  /**
   An answer that a worker holds while the checkpoint is there can be stranded if and only if a worker that
   finished an earlier turn of the session has not deleted the checkpoint yet.
   */
  lemma {:induction false} HeldAnswerLostExactly(cfg: Settings, s: System, w: Id)
    requires Reachable(cfg, s) && Carries(s, w) && Session(s, w) in s.threads
    ensures (exists actions :: Stranded(Run(cfg, s, actions), w)) <==> CleanupDue(s, Session(s, w))
  {
    ReachableInv(cfg, s);
    hide Run;
    if CleanupDue(s, Session(s, w)) {
      var earlier :| OwesCleanup(s, earlier, Session(s, w));
      hide Sound, OwesCleanup, Carries, Stranded;
      CleanupStrands(cfg, s, earlier, w);
    } else {
      assert w in s.used by {
        assert RunOk(s, w);
      }
      assert OnTheWay(s, w);
      forall actions ensures !Stranded(Run(cfg, s, actions), w) {
        SoundHasInv(cfg, s);
        hide Inv, CleanupDue;
        StaysOnTheWay(cfg, s, actions, w);
      }
    }
  }
}
