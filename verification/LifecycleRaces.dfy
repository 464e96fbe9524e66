/**
 A race the lifecycle does not exclude: a turn commits `completed` and deletes the session's checkpoint only
 afterwards, when the next turn of the session may already rely on it.
 */
module LifecycleRaces {
  import opened Wrappers
  import opened Lifecycle
  import opened LifecycleSystem
  import opened LifecycleInvariant
  import opened LifecycleSteps
  import opened LifecycleTheorems
  import opened LifecycleRows

  /** Worker `w` has committed `completed` in this session and has yet to delete its checkpoint. */
  predicate OwesCleanup(s: System, w: Id, session: Id) {
    Known(s, w) && s.runs[w].phase.Finished? && Session(s, w) == session
  }

  /** Worker `earlier` has yet to clean up the session in which worker `w` is about to hand over an answer. */
  ghost predicate CleanupPending(s: System, earlier: Id, w: Id) {
    && MayWork(s, w) && s.runs[w].answer.Some? && s.runs[w].resume.Some?
    && OwesCleanup(s, earlier, Session(s, w))
    && FenceOf(s.rows[s.runs[w].exec], w).Pass?
  }

  lemma FinishConsumes(r: Row, w: Id, k: nat, now: Time)
    requires FenceOf(r, w).Pass? && k < |r.resumes|
    ensures var r' := FinishRow(r, w, Some(k), now);
            r'.status.Completed? && |r'.resumes| == |r.resumes| && r'.resumes[k].status.Consumed?
  {
  }

  /** Once the checkpoint is gone, the worker's graph cannot receive the answer, and nothing keeps it from finishing. */
  lemma NothingToResume(s: System, w: Id)
    requires MayWork(s, w) && s.runs[w].answer.Some? && s.runs[w].suspended.None? && s.runs[w].resume.Some?
    requires Session(s, w) !in s.threads
    requires FenceOf(s.rows[s.runs[w].exec], w).Pass?
    requires s.runs[w].resume.value < |s.rows[s.runs[w].exec].resumes|
    ensures forall i :: AnswerStep(s, w, i) == s
    ensures var id, k, s' := s.runs[w].exec, s.runs[w].resume.value, FinishStep(DropStep(s, w), w);
            && id in s'.rows && s'.rows[id].status.Completed?
            && k < |s'.rows[id].resumes| && s'.rows[id].resumes[k].status.Consumed?
            && s'.answers == s.answers
  {
    var id := s.runs[w].exec;
    var s2 := DropStep(s, w);
    assert s2.runs[w] == s.runs[w].(answer := None) && s2.rows == s.rows && s2.now == s.now;
    FinishConsumes(s.rows[id], w, s.runs[w].resume.value, s.now);
    hide FinishRow, FenceOf;
  }

  lemma HolderMayFinish(cfg: Settings, s: System, earlier: Id, w: Id)
    requires Inv(cfg, s) && CleanupPending(s, earlier, w)
    ensures s.runs[w].suspended.None? && s.runs[w].resume.value < |s.rows[s.runs[w].exec].resumes|
  {
    HolderIsNamed(cfg, s, w);
    hide Inv, RowOk;
  }

  lemma CleanupForgets(s: System, earlier: Id, w: Id)
    requires CleanupPending(s, earlier, w)
    ensures var s' := CleanupStep(s, earlier);
            && w in s'.runs && s'.runs[w] == s.runs[w] && s'.rows == s.rows && s'.now == s.now
            && s'.answers == s.answers && Session(s', w) !in s'.threads
  {
    hide ShownBy, FenceOf;
  }

  /** The cleanup makes the handover impossible, and the turn can complete without the user's answer. */
  lemma CleanupLosesAnswer(cfg: Settings, s: System, earlier: Id, w: Id)
    requires Inv(cfg, s) && CleanupPending(s, earlier, w)
    ensures forall i :: AnswerStep(CleanupStep(s, earlier), w, i) == CleanupStep(s, earlier)
    ensures var id, k := s.runs[w].exec, s.runs[w].resume.value;
            var s' := FinishStep(DropStep(CleanupStep(s, earlier), w), w);
            && id in s'.rows && s'.rows[id].status.Completed?
            && k < |s'.rows[id].resumes| && s'.rows[id].resumes[k].status.Consumed?
            && s'.answers == s.answers
  {
    HolderMayFinish(cfg, s, earlier, w);
    CleanupForgets(s, earlier, w);
    hide Inv, FenceOf, CleanupStep, DropStep, FinishStep, AnswerStep;
    NothingToResume(CleanupStep(s, earlier), w);
  }

  // ---------------------------------------------------------------- the checkpoint is gone before the claim

  ghost predicate Claimable(cfg: Settings, s: System, id: Id, w: Id) {
    && id in s.rows && AwaitsWorker(s.rows[id]) && id in s.queue && w !in s.used
    && s.rows[id].attemptCount < cfg.maxAttempts && s.rows[id].user in s.active
    && s.rows[id].cancelRequestedAt.None?
  }

  lemma GrantWithoutAnswer(cfg: Settings, r: Row, w: Id, now: Time)
    requires AwaitsWorker(r) && OpenResume(r.resumes).Some? && r.attemptCount < cfg.maxAttempts
    ensures ClaimRow(cfg, r, w, now, ContextFound, true, NoCheckpoint)
         == (GrantedRow(cfg, r, w, now), Granted(OpenResume(r.resumes), None, true))
  {
  }

  /** A row that was just claimed and started can be finished, which consumes the request it was claimed with. */
  lemma LaunchedFinishes(cfg: Settings, r: Row, w: Id, now: Time)
    requires OpenResume(r.resumes).Some? && r.cancelRequestedAt.None?
    ensures var k := OpenResume(r.resumes);
            var started := StartGate(cfg, GrantedRow(cfg, r, w, now), now);
            var r' := FinishRow(started.0, w, k, now);
            && started.1.Started? && FenceOf(started.0, w).Pass?
            && r'.status.Completed? && |r'.resumes| == |r.resumes| && r'.resumes[k.value].status.Consumed?
            && r'.resumes[k.value].interruptId == r.resumes[k.value].interruptId
            && r'.resumes[k.value].value == r.resumes[k.value].value
  {
    hide CloseAttempt;
  }

  /** Without a checkpoint a claim hands out no answer, and the turn can complete with its request consumed. */
  lemma NoCheckpointSkipsAnswer(cfg: Settings, s: System, id: Id, w: Id)
    requires Claimable(cfg, s, id, w) && OpenResume(s.rows[id].resumes).Some? && cfg.leaseSeconds > 0
    requires s.rows[id].session !in s.threads
    ensures var k, claimed := OpenResume(s.rows[id].resumes), ClaimStep(cfg, s, id, w, ContextFound, true);
            && w in claimed.runs
            && claimed.runs[w] == WorkerRun(id, Starting, s.now + cfg.leaseSeconds, k, None, None)
            && var s' := FinishStep(StartStep(cfg, claimed, w), w);
               && id in s'.rows && s'.rows[id].status.Completed?
               && |s'.rows[id].resumes| == |s.rows[id].resumes| && s'.rows[id].resumes[k.value].status.Consumed?
               && s'.answers == s.answers
  {
    var r := s.rows[id];
    GrantWithoutAnswer(cfg, r, w, s.now);
    LaunchedFinishes(cfg, r, w, s.now);
    hide CheckpointObjection, Grant, GrantedRow, StartGate, FinishRow, FenceOf, ClaimRow, AwaitsWorker;
    var claimed := ClaimStep(cfg, s, id, w, ContextFound, true);
    assert claimed.rows[id] == GrantedRow(cfg, r, w, s.now);
    var started := StartStep(cfg, claimed, w);
    assert started.rows[id] == StartGate(cfg, claimed.rows[id], s.now).0;
    assert MayWork(started, w) && started.runs[w].answer.None?;
  }

  /** The same when the cleanup comes after the user answered and before a worker takes the answer. */
  lemma CleanupSkipsAnswer(cfg: Settings, s: System, earlier: Id, id: Id, w: Id)
    requires Claimable(cfg, s, id, w) && OpenResume(s.rows[id].resumes).Some? && cfg.leaseSeconds > 0
    requires OwesCleanup(s, earlier, s.rows[id].session)
    ensures var k, claimed := OpenResume(s.rows[id].resumes),
                              ClaimStep(cfg, CleanupStep(s, earlier), id, w, ContextFound, true);
            && w in claimed.runs && claimed.runs[w].resume == k && claimed.runs[w].answer.None?
            && var s' := FinishStep(StartStep(cfg, claimed, w), w);
               && id in s'.rows && s'.rows[id].status.Completed?
               && |s'.rows[id].resumes| == |s.rows[id].resumes| && s'.rows[id].resumes[k.value].status.Consumed?
               && s'.answers == s.answers
  {
    var cleaned := CleanupStep(s, earlier);
    assert cleaned.rows == s.rows && cleaned.queue == s.queue && cleaned.answers == s.answers
        && cleaned.used == s.used && cleaned.active == s.active && cleaned.now == s.now
        && s.rows[id].session !in cleaned.threads by {
      hide ShownBy;
    }
    hide CleanupStep, ClaimStep, StartStep, FinishStep, AwaitsWorker;
    NoCheckpointSkipsAnswer(cfg, cleaned, id, w);
  }

  // ---------------------------------------------------------------- dispatch, claim and start

  function LaunchActions(d: Id, id: Id, w: Id): seq<Action> {
    Dispatch(d, id) + [Claim(id, w, ContextFound, true), Start(w)]
  }

  ghost predicate LaunchedRow(r: Row, r': Row, w: Id, now: Time) {
    && r'.status.Running? && r'.worker == Some(w) && r'.cancelRequestedAt.None?
    && r'.session == r.session && r'.user == r.user && r'.key == r.key
    && r'.attemptCount == r.attemptCount + 1 && r'.resumes == ClaimedResumes(r.resumes, w, now)
    && r'.outbox.Some?
  }

  function GrantedRun(cfg: Settings, s: System, id: Id): WorkerRun
    requires id in s.rows
  {
    var grant := Grant(s.rows[id], Checkpoint(s, s.rows[id].session, true));
    WorkerRun(id, Starting, s.now + cfg.leaseSeconds, grant.resume, grant.answer, None)
  }

  /** Nothing else of the store changed. */
  ghost predicate OnlyOwn(s: System, s': System, id: Id, w: Id) {
    && id in s.rows && id in s'.rows && s'.rows == s.rows[id := s'.rows[id]]
    && s'.threads == s.threads && s'.answers == s.answers && s'.active == s.active && s'.now == s.now
    && s'.locked == s.locked
  }

  lemma ClaimLaunches(cfg: Settings, s: System, id: Id, w: Id)
    requires id in s.rows && AwaitsWorker(s.rows[id]) && id in s.queue && w !in s.used && CanBeTaken(cfg, s, id)
    ensures var s' := ClaimStep(cfg, s, id, w, ContextFound, true);
            && OnlyOwn(s, s', id, w) && s'.rows[id] == GrantedRow(cfg, s.rows[id], w, s.now)
            && s'.runs == s.runs[w := GrantedRun(cfg, s, id)] && s'.used == s.used + {w}
  {
    WaitingRowIsTaken(cfg, s, id, w);
    ClaimExactly(cfg, s.rows[id], w, s.now, ContextFound, s.rows[id].user in s.active,
                 Checkpoint(s, s.rows[id].session, true));
    hide CheckpointObjection, Grant, GrantedRow, ClaimRow, CanBeTaken, CheckpointFits;
  }

  lemma StartLaunches(cfg: Settings, s: System, w: Id)
    requires HoldsLease(s, w) && s.runs[w].phase.Starting?
    requires var r := s.rows[s.runs[w].exec]; r.status.Pending? && r.cancelRequestedAt.None?
    ensures var s', id := StartStep(cfg, s, w), s.runs[w].exec;
            && OnlyOwn(s, s', id, w) && s'.used == s.used
            && s'.rows[id] == StartGate(cfg, s.rows[id], s.now).0 && s'.rows[id].status.Running?
            && s'.runs == s.runs[w := s.runs[w].(phase := Working)]
  {
  }

  lemma LaunchRow(cfg: Settings, r: Row, w: Id, now: Time)
    requires r.outbox.Some? && r.cancelRequestedAt.None?
    ensures var r' := StartGate(cfg, GrantedRow(cfg, r, w, now), now).0; LaunchedRow(r, r', w, now)
  {
  }

  /** What dispatching, claiming and starting a waiting execution leaves behind. */
  ghost predicate Launched(cfg: Settings, s: System, s': System, id: Id, w: Id)
    requires id in s.rows
  {
    && OnlyOwn(s, s', id, w) && LaunchedRow(s.rows[id], s'.rows[id], w, s.now)
    && s'.runs == s.runs[w := GrantedRun(cfg, s, id).(phase := Working)] && s'.used == s.used + {w}
  }

  lemma {:induction false} Launch(cfg: Settings, s: System, id: Id, d: Id, w: Id)
    requires id in s.rows && AwaitsWorker(s.rows[id]) && Dispatchable(s.rows[id].outbox.value, s.now) && Idle(s, d)
    requires w !in s.used && CanBeTaken(cfg, s, id) && s.rows[id].cancelRequestedAt.None? && cfg.leaseSeconds > 0
    ensures var s' := Run(cfg, s, LaunchActions(d, id, w)); Launched(cfg, s, s', id, w) && Idle(s', d)
  {
    DispatchSends(cfg, s, id, d);
    var s1 := Run(cfg, s, Dispatch(d, id));
    ProspectsStay(cfg, s, s1, id);
    var claim, start := Claim(id, w, ContextFound, true), Start(w);
    RunLaunch(cfg, s, id, d, w);
    hide Run, CanBeTaken, AwaitsWorker, Dispatchable, GrantedRun, Grant;
    ClaimLaunches(cfg, s1, id, w);
    var s2 := ClaimStep(cfg, s1, id, w, ContextFound, true);
    SameGrant(cfg, s, s1, id);
    hide ClaimStep;
    assert s2.rows[id].cancelRequestedAt.None?;
    StartLaunches(cfg, s2, w);
    LaunchRow(cfg, s1.rows[id], w, s.now);
  }

  lemma SameGrant(cfg: Settings, s: System, s1: System, id: Id)
    requires SameProspects(s, s1, id) && s1.now == s.now
    ensures GrantedRun(cfg, s1, id) == GrantedRun(cfg, s, id)
    ensures GrantedRun(cfg, s, id).exec == id && GrantedRun(cfg, s, id).phase.Starting?
    ensures GrantedRun(cfg, s, id).leaseUntil == s.now + cfg.leaseSeconds
  {
  }

  lemma {:induction false} RunLaunch(cfg: Settings, s: System, id: Id, d: Id, w: Id)
    ensures Run(cfg, s, LaunchActions(d, id, w))
         == StartStep(cfg, ClaimStep(cfg, Run(cfg, s, Dispatch(d, id)), id, w, ContextFound, true), w)
  {
    var s1 := Run(cfg, s, Dispatch(d, id));
    var claim, start := Claim(id, w, ContextFound, true), Start(w);
    hide ClaimStep, StartStep;
    RunTwo(cfg, s, Dispatch(d, id), [claim, start]);
    RunOne(cfg, s1, claim);
    RunOne(cfg, Apply(cfg, s1, claim), start);
    RunTwo(cfg, s1, [claim], [start]);
    assert [claim] + [start] == [claim, start];
  }

  // ---------------------------------------------------------------- states that lead to others

  /** Some sequence of actions leads from `s` to `s'`. */
  ghost predicate Leads(cfg: Settings, s: System, s': System) {
    exists actions :: Run(cfg, s, actions) == s'
  }

  lemma LeadsNowhere(cfg: Settings, s: System)
    ensures Leads(cfg, s, s)
  {
    assert Run(cfg, s, []) == s;
  }

  lemma {:induction false} LeadsOn(cfg: Settings, s: System, s': System, actions: seq<Action>)
    requires Leads(cfg, s, s')
    ensures Leads(cfg, s, Run(cfg, s', actions))
  {
    var before :| Run(cfg, s, before) == s';
    RunTwo(cfg, s, before, actions);
  }

  lemma LeadsNext(cfg: Settings, s: System, s': System, a: Action)
    requires Leads(cfg, s, s')
    ensures Leads(cfg, s, Apply(cfg, s', a))
  {
    LeadsOn(cfg, s, s', [a]);
    RunOne(cfg, s', a);
    hide Apply, Leads, Run;
  }

  lemma LeadsFurther(cfg: Settings, a: System, b: System, c: System)
    requires Leads(cfg, a, b) && Leads(cfg, b, c)
    ensures Leads(cfg, a, c)
  {
    var actions :| Run(cfg, b, actions) == c;
    LeadsOn(cfg, a, b, actions);
    hide Run;
  }

  // ---------------------------------------------------------------- a turn that asks and is answered

  const QUESTION := Interrupt(5, Digest(0, 0))

  /** A turn nobody has claimed yet, in a store where nothing hinders a claim. */
  ghost predicate FreshTurn(s: System, id: Id) {
    && id in s.rows && AwaitsWorker(s.rows[id]) && Dispatchable(s.rows[id].outbox.value, s.now)
    && s.rows[id].resumes == [] && s.rows[id].attemptCount == 0 && s.rows[id].cancelRequestedAt.None?
    && s.rows[id].user in s.active
  }

  /** A turn whose answer waits for a worker; its checkpoint shows the question. */
  ghost predicate AnsweredTurn(s: System, id: Id, value: Token) {
    && id in s.rows && AwaitsWorker(s.rows[id]) && Dispatchable(s.rows[id].outbox.value, s.now)
    && s.rows[id].resumes == [ResumeRequest(QUESTION.id, QUESTION.callsHash, value, Requested, None, None)]
    && s.rows[id].attemptCount == 1 && s.rows[id].cancelRequestedAt.None?
    && s.rows[id].user in s.active
    && s.rows[id].session in s.threads
    && s.threads[s.rows[id].session] == map[QUESTION.id := QUESTION.callsHash]
  }

  /** Of what other turns and workers rely on, nothing changed. */
  ghost predicate OthersAside(s: System, s': System, id: Id, w: Id) {
    && id in s.rows && id in s'.rows && s'.rows == s.rows[id := s'.rows[id]]
    && s'.rows[id].session == s.rows[id].session
    && w in s'.runs && s'.runs == s.runs[w := s'.runs[w]]
    && s'.used == s.used + {w} && s'.answers == s.answers && s'.locked == s.locked
  }

  lemma FreshIsReady(cfg: Settings, s: System, id: Id)
    requires FreshTurn(s, id) && cfg.maxAttempts > 0
    ensures CanBeTaken(cfg, s, id)
    ensures GrantedRun(cfg, s, id) == WorkerRun(id, Starting, s.now + cfg.leaseSeconds, None, None, None)
  {
  }

  lemma AnswerIsGranted(cfg: Settings, s: System, id: Id, value: Token)
    requires AnsweredTurn(s, id, value) && cfg.maxAttempts >= 2
    ensures CanBeTaken(cfg, s, id)
    ensures GrantedRun(cfg, s, id)
         == WorkerRun(id, Starting, s.now + cfg.leaseSeconds, Some(0), Some(value), None)
  {
    var pending := s.threads[s.rows[id].session];
    assert QUESTION.id in pending.Keys;
    assert OpenResume(s.rows[id].resumes) == Some(0);
  }

  /** The graph of a worker without an answer to hand over asks, and the worker suspends. */
  lemma QuestionIsAsked(s: System, id: Id, w: Id)
    requires MaySave(s, w) && s.runs[w].exec == id && s.runs[w].resume.None? && FenceOf(s.rows[id], w).Pass?
    ensures var s' := SuspendStep(RaiseStep(s, w, QUESTION), w);
            && s'.rows == s.rows[id := WaitingRow(s.rows[id], None, QUESTION, s.now)]
            && w in s'.runs && s'.runs == s.runs[w := s'.runs[w]]
            && s'.threads == s.threads[s.rows[id].session := map[QUESTION.id := QUESTION.callsHash]]
            && s'.used == s.used && s'.active == s.active && s'.answers == s.answers && s'.now == s.now
            && s'.locked == s.locked
  {
    hide WaitingRow;
    var s1 := RaiseStep(s, w, QUESTION);
    assert s1.rows == s.rows && s1.runs == s.runs[w := s.runs[w].(suspended := Some(QUESTION))];
    assert FenceOf(s1.rows[id], w).Pass?;
  }

  lemma QuestionIsAnswered(r: Row, value: Token, now: Time)
    requires r.resumes == [] && r.outbox.Some? && r.cancelRequestedAt.None?
    ensures var r' := ResumeRow(WaitingRow(r, None, QUESTION, now), Some(value), now);
            && r'.resumes == [ResumeRequest(QUESTION.id, QUESTION.callsHash, value, Requested, None, None)]
            && AwaitsWorker(r') && Dispatchable(r'.outbox.value, now)
            && r'.session == r.session && r'.user == r.user && r'.attemptCount == r.attemptCount
            && r'.cancelRequestedAt.None?
  {
    hide CloseAttempt;
  }

  lemma AskLeads(cfg: Settings, s: System, id: Id, w: Id, value: Token)
    ensures Leads(cfg, s, ResumeStep(SuspendStep(RaiseStep(s, w, QUESTION), w), id, Some(value)))
  {
    LeadsNowhere(cfg, s);
    hide Leads, RaiseStep, SuspendStep, ResumeStep;
    var s1 := RaiseStep(s, w, QUESTION);
    var s2 := SuspendStep(s1, w);
    LeadsNext(cfg, s, s, GraphSuspend(w, QUESTION));
    LeadsNext(cfg, s, s1, Suspend(w));
    LeadsNext(cfg, s, s2, ResumeTurn(id, Some(value)));
  }

  /** A worker takes the fresh turn. */
  lemma TakeFresh(cfg: Settings, s: System, id: Id, d: Id, w: Id) returns (s': System)
    requires FreshTurn(s, id) && Idle(s, d) && w !in s.used && cfg.maxAttempts >= 2 && cfg.leaseSeconds > 0
    ensures Leads(cfg, s, s') && OthersAside(s, s', id, w)
    ensures MaySave(s', w) && s'.runs[w].exec == id && s'.runs[w].resume.None? && FenceOf(s'.rows[id], w).Pass?
    ensures s'.rows[id].resumes == [] && s'.rows[id].outbox.Some? && s'.rows[id].cancelRequestedAt.None?
    ensures s'.rows[id].attemptCount == 1 && s'.rows[id].user in s'.active
  {
    FreshIsReady(cfg, s, id);
    Launch(cfg, s, id, d, w);
    s' := Run(cfg, s, LaunchActions(d, id, w));
    LeadsNowhere(cfg, s);
    LeadsOn(cfg, s, s, LaunchActions(d, id, w));
    hide Run, Leads, CanBeTaken, GrantedRun, AwaitsWorker, Dispatchable;
    assert s'.rows[id].resumes == [];
  }

  /** A new worker takes the fresh turn, its graph asks, and the user answers. */
  lemma AskAndAnswer(cfg: Settings, s: System, id: Id, d: Id, w: Id, value: Token) returns (s': System)
    requires FreshTurn(s, id) && Idle(s, d) && w !in s.used && cfg.maxAttempts >= 2 && cfg.leaseSeconds > 0
    ensures Leads(cfg, s, s') && AnsweredTurn(s', id, value) && OthersAside(s, s', id, w)
  {
    hide Leads, FreshTurn, FenceOf, AwaitsWorker, Dispatchable;
    var s1 := TakeFresh(cfg, s, id, d, w);
    QuestionIsAsked(s1, id, w);
    QuestionIsAnswered(s1.rows[id], value, s1.now);
    AskLeads(cfg, s1, id, w, value);
    hide ResumeRow, WaitingRow, RaiseStep, SuspendStep, MaySave;
    s' := ResumeStep(SuspendStep(RaiseStep(s1, w, QUESTION), w), id, Some(value));
    LeadsFurther(cfg, s, s1, s');
  }

  /** Another worker takes the answer, while `earlier` has still to clean up. */
  lemma TakeAnswer(cfg: Settings, s: System, id: Id, d: Id, w: Id, value: Token, earlier: Id) returns (s': System)
    requires AnsweredTurn(s, id, value) && Idle(s, d) && w !in s.used && w != earlier
    requires cfg.maxAttempts >= 2 && cfg.leaseSeconds > 0
    requires OwesCleanup(s, earlier, s.rows[id].session)
    ensures Leads(cfg, s, s') && OthersAside(s, s', id, w) && CleanupPending(s', earlier, w)
    ensures s'.runs[w].exec == id && s'.runs[w].answer == Some(value) && s'.runs[w].resume == Some(0)
  {
    AnswerIsGranted(cfg, s, id, value);
    Launch(cfg, s, id, d, w);
    s' := Run(cfg, s, LaunchActions(d, id, w));
    LeadsNowhere(cfg, s);
    LeadsOn(cfg, s, s, LaunchActions(d, id, w));
    hide Run, Leads, CanBeTaken, GrantedRun, AwaitsWorker, Dispatchable, ClaimedResumes;
  }

  lemma {:induction false} Bounded(ids: set<Id>) returns (bound: Id)
    ensures forall x | x in ids :: x < bound
  {
    bound := 0;
    if ids != {} {
      var x :| x in ids;
      var rest := Bounded(ids - {x});
      bound := if x < rest then rest else x + 1;
      assert forall y | y in ids :: y == x || y in ids - {x};
    }
  }

  lemma IdleDispatcher(s: System) returns (d: Id)
    ensures Idle(s, d)
  {
    var busy := set p | p in s.locked :: p.0;
    d := Bounded(busy);
    forall id: Id ensures (d, id) !in s.locked {
      var p := (d, id);
      assert p in s.locked ==> p.0 in busy;
    }
  }

  /** From any fresh turn the service can get into the race, if a cleanup is outstanding in its session. */
  lemma RaceFollows(cfg: Settings, s: System, id: Id, earlier: Id, value: Token) returns (s': System, w: Id)
    requires FreshTurn(s, id) && cfg.maxAttempts >= 2 && cfg.leaseSeconds > 0
    requires OwesCleanup(s, earlier, s.rows[id].session)
    requires earlier in s.used
    ensures Leads(cfg, s, s') && CleanupPending(s', earlier, w) && s'.answers == s.answers
    ensures s'.runs[w].exec == id && s'.runs[w].answer == Some(value)
  {
    var d := IdleDispatcher(s);
    var first := Bounded(s.used);
    hide Leads, FreshTurn, AnsweredTurn, CleanupPending;
    var mid := AskAndAnswer(cfg, s, id, d, first, value);
    w := first + 1;
    assert OwesCleanup(mid, earlier, mid.rows[id].session);
    s' := TakeAnswer(cfg, mid, id, d, w, value, earlier);
    LeadsFurther(cfg, s, mid, s');
  }

  // ---------------------------------------------------------------- the race can happen

  /** A turn that is new and alone in its session. */
  lemma CreatedIsFresh(cfg: Settings, s: System, id: Id, session: Id, user: Id, key: Option<Token>)
    requires id !in s.rows && !Replays(s, session, key) && !SessionBusy(s, session)
    ensures var s' := EnabledTurn(s, id, session, user, key);
            && Leads(cfg, s, s') && Leads(cfg, CreateStep(s, id, session, user, key), s') && FreshTurn(s', id)
            && s'.rows == s.rows[id := NewRow(session, user, key, s.now)]
            && s'.runs == s.runs && s'.used == s.used && s'.answers == s.answers
  {
    var created := CreateStep(s, id, session, user, key);
    LeadsNowhere(cfg, s);
    LeadsNowhere(cfg, created);
    hide Leads, Replays, SessionBusy;
    LeadsNext(cfg, s, s, CreateTurn(id, session, user, key));
    LeadsNext(cfg, s, created, EnableUser(user));
    LeadsNext(cfg, created, created, EnableUser(user));
  }

  /** The store after a turn was created for a user who is active. */
  ghost function EnabledTurn(s: System, id: Id, session: Id, user: Id, key: Option<Token>): System {
    var s' := CreateStep(s, id, session, user, key);
    s'.(active := s'.active + {user})
  }

  const SESSION: Id := 7
  const USER: Id := 1

  lemma FinishCommits(s: System, w: Id)
    requires MayWork(s, w) && s.runs[w].suspended.None? && s.runs[w].answer.None?
    requires FenceOf(s.rows[s.runs[w].exec], w).Pass?
    ensures var s', id := FinishStep(s, w), s.runs[w].exec;
            && OnlyOwn(s, s', id, w) && s'.rows[id].status.Completed? && s'.rows[id].session == s.rows[id].session
            && s'.runs == s.runs[w := s.runs[w].(phase := Finished)] && s'.used == s.used
  {
    hide ConsumeResume, CloseAttempt;
  }

  /** Turn 1 has committed `completed`; worker 11 has not cleaned up yet. */
  ghost predicate FirstCommitted(s: System) {
    && s.rows.Keys == {1} && s.rows[1].session == SESSION && s.rows[1].status.Completed?
    && OwesCleanup(s, 11, SESSION)
    && s.used == {11} && s.answers == []
  }

  lemma FirstLaunch(cfg: Settings) returns (s: System)
    requires cfg.maxAttempts >= 2 && cfg.leaseSeconds > 0
    ensures Leads(cfg, EMPTY_SYSTEM, s) && s.rows.Keys == {1} && s.rows[1].session == SESSION
    ensures MayWork(s, 11) && s.runs[11].exec == 1 && s.runs[11].suspended.None? && s.runs[11].answer.None?
    ensures FenceOf(s.rows[1], 11).Pass? && s.used == {11} && s.answers == []
  {
    var s1 := EnabledTurn(EMPTY_SYSTEM, 1, SESSION, USER, None);
    CreatedIsFresh(cfg, EMPTY_SYSTEM, 1, SESSION, USER, None);
    FreshIsReady(cfg, s1, 1);
    var d := IdleDispatcher(s1);
    Launch(cfg, s1, 1, d, 11);
    s := Run(cfg, s1, LaunchActions(d, 1, 11));
    hide Run, Leads, AwaitsWorker, Dispatchable, CanBeTaken, GrantedRun, EnabledTurn, Idle;
    LeadsOn(cfg, EMPTY_SYSTEM, s1, LaunchActions(d, 1, 11));
  }

  lemma FirstTurn(cfg: Settings) returns (s: System)
    requires cfg.maxAttempts >= 2 && cfg.leaseSeconds > 0
    ensures Leads(cfg, EMPTY_SYSTEM, s) && FirstCommitted(s)
  {
    hide Leads, FenceOf;
    var running := FirstLaunch(cfg);
    FinishCommits(running, 11);
    s := FinishStep(running, 11);
    LeadsNext(cfg, EMPTY_SYSTEM, running, Finish(11));
    hide FinishStep;
  }

  /** A run of the service really gets there: an earlier cleanup is pending while an answer is handed over. */
  lemma CleanupRaceIsReachable(cfg: Settings, value: Token)
    requires cfg.maxAttempts >= 2 && cfg.leaseSeconds > 0
    ensures exists s, w :: Reachable(cfg, s) && CleanupPending(s, 11, w) && s.runs[w].answer == Some(value)
                           && s.answers == []
  {
    var s1 := FirstTurn(cfg);
    CreatedIsFresh(cfg, s1, 2, SESSION, USER, None);
    var s2 := EnabledTurn(s1, 2, SESSION, USER, None);
    hide Run, Leads, CleanupPending, EnabledTurn, FreshTurn;
    LeadsFurther(cfg, EMPTY_SYSTEM, s1, s2);
    var s, w := RaceFollows(cfg, s2, 2, 11, value);
    LeadsFurther(cfg, EMPTY_SYSTEM, s2, s);
    LeadsIsReachable(cfg, s);
  }

  lemma LeadsIsReachable(cfg: Settings, s: System)
    ensures Leads(cfg, EMPTY_SYSTEM, s) <==> Reachable(cfg, s)
  {
    hide Run;
  }
}
