/** What every run of the execution lifecycle guarantees. */
module LifecycleTheorems {
  import opened Wrappers
  import opened Lifecycle
  import opened LifecycleSystem
  import opened LifecycleInvariant
  import opened LifecycleSteps
  import opened LifecycleDelivery
  import opened LifecycleHandover
  import opened LifecycleRows
  import opened LifecycleActions

  // ---------------------------------------------------------------- from actions to runs

  /** All that is known of a reachable state: the rows and workers, the messages, and the answers. */
  ghost predicate Sound(cfg: Settings, s: System) {
    Inv(cfg, s) && Delivering(s) && Handed(s)
  }

  lemma {:induction false} RunKeeps(cfg: Settings, s: System, actions: seq<Action>)
    requires Sound(cfg, s)
    ensures Sound(cfg, Run(cfg, s, actions)) && StoreEvolves(s, Run(cfg, s, actions))
    decreases |actions|
  {
    SameStore(s);
    hide Inv, StoreEvolves, Apply, Delivering, Handed;
    if actions != [] {
      var mid := Apply(cfg, s, actions[0]);
      ApplyKeeps(cfg, s, actions[0]);
      ApplyDelivers(cfg, s, actions[0]);
      ApplyHanded(cfg, s, actions[0]);
      RunKeeps(cfg, mid, actions[1..]);
      StoreEvolvesTransitive(s, mid, Run(cfg, mid, actions[1..]));
    }
  }

  lemma EmptyIsSound(cfg: Settings)
    ensures Sound(cfg, EMPTY_SYSTEM)
  {
    forall w: Id ensures RunOk(EMPTY_SYSTEM, w) && RunHanded(EMPTY_SYSTEM, w) {
    }
    forall id: Id ensures Announced(EMPTY_SYSTEM, id) && RowHanded(EMPTY_SYSTEM, id) {
    }
  }

  lemma ReachableInv(cfg: Settings, s: System)
    requires Reachable(cfg, s)
    ensures Sound(cfg, s)
  {
    hide Sound, StoreEvolves, Apply;
    EmptyIsSound(cfg);
    var actions :| Run(cfg, EMPTY_SYSTEM, actions) == s;
    RunKeeps(cfg, EMPTY_SYSTEM, actions);
  }

  // ---------------------------------------------------------------- sessions and final states

  /** At most one execution per session is pending, running or waiting for input. */
  lemma OneActiveTurn(cfg: Settings, s: System, a: Id, b: Id)
    requires Reachable(cfg, s) && a in s.rows && b in s.rows
    requires s.rows[a].session == s.rows[b].session
    requires s.rows[a].status in {Pending, Running, WaitingInput}
    requires s.rows[b].status in {Pending, Running, WaitingInput}
    ensures a == b
  {
    ReachableInv(cfg, s);
    hide RowOk, RunOk, Answered;
  }

  /** One idempotency key never creates two turns in a session. */
  lemma OneTurnPerIdempotencyKey(cfg: Settings, s: System, a: Id, b: Id)
    requires Reachable(cfg, s) && a in s.rows && b in s.rows
    requires s.rows[a].session == s.rows[b].session && s.rows[a].key.Some? && s.rows[a].key == s.rows[b].key
    ensures a == b
  {
    ReachableInv(cfg, s);
    hide RowOk, RunOk, Answered;
  }

  /** An execution that completed, failed or was cancelled stays exactly as it ended. */
  lemma {:induction false} FinishedForever(cfg: Settings, s: System, actions: seq<Action>, id: Id)
    requires Reachable(cfg, s) && id in s.rows && s.rows[id].status.Terminal()
    ensures var s' := Run(cfg, s, actions);
            id in s'.rows && s'.rows[id] == s.rows[id].(outbox := s'.rows[id].outbox)
  {
    ReachableInv(cfg, s);
    RunKeeps(cfg, s, actions);
    hide Inv, Apply;
  }

  // ---------------------------------------------------------------- no lost execution

  /** Where an unfinished execution can be, and what will move it on. */
  lemma NoLostExecution(cfg: Settings, s: System, id: Id)
    requires Reachable(cfg, s) && id in s.rows && !s.rows[id].status.Terminal()
    ensures var r := s.rows[id];
            || (r.status.WaitingInput? && forall i | 0 <= i < |r.resumes| :: r.resumes[i].status.Consumed?)
            || (&& r.status.Pending? && r.worker.None? && r.leaseExpiresAt.None? && r.claimedAt.None?
                && r.outbox.Some? && r.outbox.value.status in {Queued, Publishing, Published}
                && (r.outbox.value.status.Published? ==> id in s.queue))
            || ((r.status.Pending? || r.status.Running?) && r.worker.Some? && r.leaseExpiresAt.Some?)
  {
    ReachableInv(cfg, s);
    hide RunOk, Answered, Handed;
    assert RowOk(cfg, s.rows[id]) && Announced(s, id);
  }

  /** No user, no administrator and no worker that is already there takes part. */
  predicate Unattended(actions: seq<Action>) {
    forall a | a in actions ::
      a.Tick? || a.Recover? || a.LockOutbox? || a.Send? || a.MarkPublished? || a.Claim?
  }

  /**
   A worker may take the execution: attempts are left, the user is active, and if an answer waits while the
   checkpoint shows an interrupt, that interrupt is the answer's, with the same tool calls.
   */
  ghost predicate CanBeTaken(cfg: Settings, s: System, id: Id)
    requires id in s.rows
  {
    var r := s.rows[id];
    && r.attemptCount < cfg.maxAttempts && r.user in s.active
    && forall k: nat | NewestOpen(r, k) && r.session in s.threads :: Fits(r.resumes[k], s.threads[r.session])
  }

  lemma ReadableFits(s: System, id: Id)
    requires id in s.rows
    ensures CheckpointFits(s.rows[id], Checkpoint(s, s.rows[id].session, true))
        <==> forall k: nat | NewestOpen(s.rows[id], k) && s.rows[id].session in s.threads ::
               Fits(s.rows[id].resumes[k], s.threads[s.rows[id].session])
  {
    hide Fits;
    NewestIsFound(s.rows[id], s.rows[id].resumes);
  }

  /** The value the worker has to hand over: that of the open request, while the checkpoint shows an interrupt. */
  ghost predicate CarriesAnswer(r: Row, threads: map<Id, map<Id, Digest>>, run: WorkerRun) {
    && (run.resume.None? <==> NothingOpen(r))
    && (NothingOpen(r) ==> run.answer == None)
    && forall k: nat | NewestOpen(r, k) ::
         run.resume == Some(k)
         && run.answer == if r.session in threads && threads[r.session] != map[] then Some(r.resumes[k].value) else None
  }

  /** Worker `w` holds the execution of `s` in `s'`, with a lease and the answer it has to hand over. */
  ghost predicate HeldBy(cfg: Settings, s: System, s': System, id: Id, w: Id)
    requires id in s.rows
  {
    && id in s'.rows && s'.rows[id].status.Pending? && s'.rows[id].worker == Some(w)
    && w in s'.runs && s'.runs[w].exec == id && s'.runs[w].phase.Starting?
    && s'.runs[w].leaseUntil == s'.now + cfg.leaseSeconds
    && CarriesAnswer(s.rows[id], s.threads, s'.runs[w])
  }

  /** `actions` hand the execution to worker `w`, or end it if no worker may take it. */
  ghost predicate Rescues(cfg: Settings, s: System, actions: seq<Action>, id: Id, w: Id)
    requires id in s.rows
  {
    var s' := Run(cfg, s, actions);
    && Unattended(actions)
    && if CanBeTaken(cfg, s, id) then HeldBy(cfg, s, s', id, w) else id in s'.rows && s'.rows[id].status.Terminal()
  }

  lemma {:induction false} RunTwo(cfg: Settings, s: System, first: seq<Action>, second: seq<Action>)
    ensures Run(cfg, s, first + second) == Run(cfg, Run(cfg, s, first), second)
    decreases |first|
  {
    hide Apply;
    if first == [] {
      assert first + second == second;
    } else {
      assert (first + second)[1..] == first[1..] + second;
      RunTwo(cfg, Apply(cfg, s, first[0]), first[1..], second);
    }
  }

  lemma {:induction false} RunOne(cfg: Settings, s: System, a: Action)
    ensures Run(cfg, s, [a]) == Apply(cfg, s, a)
  {
    hide Apply;
    assert Run(cfg, s, [a]) == Run(cfg, Apply(cfg, s, a), []);
  }

  /** The rest of the store does not matter for whether an execution can be taken. */
  ghost predicate SameProspects(s: System, s': System, id: Id) {
    && id in s.rows && id in s'.rows && s'.active == s.active && s'.threads == s.threads && s'.used == s.used
    && var r, r' := s.rows[id], s'.rows[id];
       && r'.attemptCount == r.attemptCount && r'.user == r.user && r'.session == r.session
       && r'.resumes == r.resumes
  }

  lemma ProspectsStay(cfg: Settings, s: System, s': System, id: Id)
    requires SameProspects(s, s', id)
    ensures CanBeTaken(cfg, s', id) <==> CanBeTaken(cfg, s, id)
    ensures forall t: System, w: Id :: HeldBy(cfg, s', t, id, w) ==> HeldBy(cfg, s, t, id, w)
  {
    assert forall k: nat :: NewestOpen(s'.rows[id], k) <==> NewestOpen(s.rows[id], k);
    hide NewestOpen, Fits;
  }

  lemma WaitingRowIsTaken(cfg: Settings, s: System, id: Id, w: Id)
    requires id in s.rows && AwaitsWorker(s.rows[id])
    ensures var r, view := s.rows[id], Checkpoint(s, s.rows[id].session, true);
            var (r', outcome) := ClaimRow(cfg, r, w, s.now, ContextFound, r.user in s.active, view);
            if CanBeTaken(cfg, s, id)
            then outcome == Grant(r, view) && r'.status.Pending? && r'.worker == Some(w) else r'.status.Terminal()
  {
    ReadableFits(s, id);
    ClaimExactly(cfg, s.rows[id], w, s.now, ContextFound, s.rows[id].user in s.active,
                 Checkpoint(s, s.rows[id].session, true));
    GrantedExactly(cfg, s.rows[id], w, s.now);
    hide CheckpointFits, ClaimRow, Grant, GrantedRow, NewestOpen, Fits, Checkpoint, CheckpointObjection;
  }

  lemma GrantCarriesAnswer(s: System, id: Id, run: WorkerRun)
    requires id in s.rows
    requires var grant := Grant(s.rows[id], Checkpoint(s, s.rows[id].session, true));
             run.resume == grant.resume && run.answer == grant.answer
    ensures CarriesAnswer(s.rows[id], s.threads, run)
  {
    GrantExactly(s.rows[id], Checkpoint(s, s.rows[id].session, true));
    hide Grant, NewestOpen;
  }

  /** A message is on the broker: one claim is enough. */
  lemma ClaimRescues(cfg: Settings, s: System, id: Id, w: Id)
    requires id in s.rows && AwaitsWorker(s.rows[id]) && id in s.queue && w !in s.used
    ensures Rescues(cfg, s, [Claim(id, w, ContextFound, true)], id, w)
  {
    var a, r := Claim(id, w, ContextFound, true), s.rows[id];
    RunOne(cfg, s, a);
    WaitingRowIsTaken(cfg, s, id, w);
    var s' := ClaimStep(cfg, s, id, w, ContextFound, true);
    hide CheckpointObjection, Run, ClaimRow, AwaitsWorker, Checkpoint, Grant, CarriesAnswer, CanBeTaken;
    assert Apply(cfg, s, a) == s';
    if CanBeTaken(cfg, s, id) {
      GrantCarriesAnswer(s, id, s'.runs[w]);
    }
  }

  /** The dispatcher's pass over one queued row: lock, send, record. */
  function Dispatch(d: Id, id: Id): seq<Action> {
    [LockOutbox(d, {id}), Send(d, id), MarkPublished(d, id)]
  }

  lemma {:induction false} RunThree(cfg: Settings, s: System, a: Action, b: Action, c: Action)
    ensures Run(cfg, s, [a, b, c]) == Apply(cfg, Apply(cfg, Apply(cfg, s, a), b), c)
  {
    hide Apply;
    var s1 := Apply(cfg, s, a);
    var s2 := Apply(cfg, s1, b);
    assert [a, b, c][1..] == [b, c] && [b, c][1..] == [c];
    RunOne(cfg, s2, c);
  }

  lemma {:induction false} DispatchSends(cfg: Settings, s: System, id: Id, d: Id)
    requires id in s.rows && AwaitsWorker(s.rows[id]) && Dispatchable(s.rows[id].outbox.value, s.now) && Idle(s, d)
    ensures var s' := Run(cfg, s, Dispatch(d, id));
            && id in s'.rows && AwaitsWorker(s'.rows[id]) && id in s'.queue
            && s'.rows == s.rows[id := s.rows[id].(outbox := s'.rows[id].outbox)]
            && SameProspects(s, s', id) && Idle(s', d) && s'.now == s.now && s'.runs == s.runs
            && s'.answers == s.answers && s'.cleared == s.cleared && s'.locked == s.locked
  {
    var s1 := LockStep(s, d, {id});
    var s2 := SendStep(s1, d, id);
    var s3 := PublishStep(s2, d, id);
    RunThree(cfg, s, LockOutbox(d, {id}), Send(d, id), MarkPublished(d, id));
    assert s1.rows[id] == LockRow(s.rows[id], d, s.now);
    assert s1.rows == s.rows[id := s1.rows[id]];
    assert s1.locked == s.locked + {(d, id)};
    assert s3.rows == s.rows[id := s3.rows[id]];
    assert s3.locked == s.locked;
    hide Run;
  }

  /** Unattended steps that change nothing about the prospects may come first. */
  lemma {:induction false} RescuesLater(cfg: Settings, s: System, first: seq<Action>, rest: seq<Action>, id: Id, w: Id)
    requires Unattended(first) && SameProspects(s, Run(cfg, s, first), id)
    requires Rescues(cfg, Run(cfg, s, first), rest, id, w)
    ensures Rescues(cfg, s, first + rest, id, w)
  {
    ProspectsStay(cfg, s, Run(cfg, s, first), id);
    RunTwo(cfg, s, first, rest);
    hide Run, CanBeTaken, SameProspects;
  }

  lemma DispatchRescues(cfg: Settings, s: System, id: Id, w: Id, d: Id)
    requires id in s.rows && AwaitsWorker(s.rows[id]) && Dispatchable(s.rows[id].outbox.value, s.now) && Idle(s, d)
    requires w !in s.used
    ensures Rescues(cfg, s, Dispatch(d, id) + [Claim(id, w, ContextFound, true)], id, w)
  {
    DispatchSends(cfg, s, id, d);
    var s' := Run(cfg, s, Dispatch(d, id));
    assert Unattended(Dispatch(d, id));
    assert s'.used == s.used;
    hide Run, Rescues, Idle, AwaitsWorker, SameProspects, Dispatchable;
    ClaimRescues(cfg, s', id, w);
    RescuesLater(cfg, s, Dispatch(d, id), [Claim(id, w, ContextFound, true)], id, w);
  }

  /** Wait until the row may be dispatched, dispatch it, claim it. */
  lemma WaitRescues(cfg: Settings, s: System, id: Id, w: Id, d: Id) returns (actions: seq<Action>)
    requires id in s.rows && AwaitsWorker(s.rows[id]) && !IsPublished(s.rows[id]) && w !in s.used && Idle(s, d)
    ensures |actions| == 5 && Rescues(cfg, s, actions, id, w)
  {
    var o := s.rows[id].outbox.value;
    var wait := Tick(o.availableAt + o.lockedUntil.Or(0) + 1);
    var later := s.(now := s.now + wait.seconds);
    var rest := Dispatch(d, id) + [Claim(id, w, ContextFound, true)];
    RunOne(cfg, s, wait);
    assert Dispatchable(o, later.now) && Idle(later, d) && SameProspects(s, later, id);
    hide Run, Rescues, AwaitsWorker, Idle, SameProspects, Dispatchable;
    DispatchRescues(cfg, later, id, w, d);
    RescuesLater(cfg, s, [wait], rest, id, w);
    actions := [wait] + rest;
  }

  lemma QueueRescues(cfg: Settings, s: System, id: Id, w: Id, d: Id) returns (actions: seq<Action>)
    requires Sound(cfg, s) && id in s.rows && AwaitsWorker(s.rows[id]) && w !in s.used && Idle(s, d)
    ensures |actions| <= 5 && Rescues(cfg, s, actions, id, w)
  {
    assert Announced(s, id);
    hide Sound, Rescues, Idle;
    if IsPublished(s.rows[id]) {
      ClaimRescues(cfg, s, id, w);
      actions := [Claim(id, w, ContextFound, true)];
    } else {
      actions := WaitRescues(cfg, s, id, w, d);
    }
  }

  /** Once a lease has run out, one pass of the recovery beat ends or requeues the execution. */
  lemma RecoveryFrees(cfg: Settings, s: System, id: Id)
    requires id in s.rows && Leased(s.rows[id])
    ensures var s' := Run(cfg, s, [Tick(s.rows[id].leaseExpiresAt.value + 1), Recover({}, {id})]);
            && SameProspects(s, s', id) && s'.locked == s.locked
            && (if s.rows[id].attemptCount < cfg.maxAttempts then AwaitsWorker(s'.rows[id])
                else s'.rows[id].status.Terminal())
  {
    var wait := Tick(s.rows[id].leaseExpiresAt.value + 1);
    var recover := Recover({}, {id});
    var s1 := s.(now := s.now + wait.seconds);
    var s2 := RecoverStep(cfg, s1, {}, {id});
    RunOne(cfg, s, wait);
    RunOne(cfg, s1, recover);
    RunTwo(cfg, s, [wait], [recover]);
    assert [wait] + [recover] == [wait, recover];
    assert s2.rows[id] == RecoverLease(cfg, s.rows[id], s1.now);
    hide Run;
  }

  lemma LeaseRescues(cfg: Settings, s: System, id: Id, w: Id, d: Id) returns (actions: seq<Action>)
    requires Sound(cfg, s) && id in s.rows && Leased(s.rows[id]) && w !in s.used && Idle(s, d)
    ensures |actions| <= 7 && Rescues(cfg, s, actions, id, w)
  {
    var free := [Tick(s.rows[id].leaseExpiresAt.value + 1), Recover({}, {id})];
    var s' := Run(cfg, s, free);
    RecoveryFrees(cfg, s, id);
    RunKeeps(cfg, s, free);
    assert Unattended(free);
    if s.rows[id].attemptCount >= cfg.maxAttempts {
      hide Run;
      return free;
    }
    hide Sound, Run, StoreEvolves, Rescues, Leased, AwaitsWorker;
    var rest := QueueRescues(cfg, s', id, w, d) by {
      assert s'.used == s.used && Idle(s', d);
    }
    hide SameProspects;
    RescuesLater(cfg, s, free, rest, id, w);
    actions := free + rest;
  }

  /**
   Whatever crashed, the clock, the recovery beat, one idle dispatcher and one fresh worker are enough: a
   pending or running execution is handed to that worker, and it ends only if no worker may take it.
   */
  lemma AlwaysRescuable(cfg: Settings, s: System, id: Id, w: Id, d: Id)
    requires Reachable(cfg, s) && id in s.rows && (s.rows[id].status.Pending? || s.rows[id].status.Running?)
    requires w !in s.used && Idle(s, d)
    ensures exists actions :: |actions| <= 7 && Rescues(cfg, s, actions, id, w)
  {
    ReachableInv(cfg, s);
    assert RowOk(cfg, s.rows[id]);
    hide Sound, Rescues, Idle;
    if AwaitsWorker(s.rows[id]) {
      var actions := QueueRescues(cfg, s, id, w, d);
    } else {
      var actions := LeaseRescues(cfg, s, id, w, d);
    }
  }

  lemma SoundStep(cfg: Settings, s: System, a: Action)
    requires Sound(cfg, s)
    ensures Sound(cfg, Apply(cfg, s, a))
  {
    RunKeeps(cfg, s, [a]);
    RunOne(cfg, s, a);
    hide Apply, Run, Sound;
  }

  // ---------------------------------------------------------------- cancellation

  /** A cancel request on a running execution is never lost, whatever crashes and re-claims follow. */
  lemma {:induction false} CancelIsNeverLost(cfg: Settings, s: System, actions: seq<Action>, id: Id)
    requires Reachable(cfg, s) && id in s.rows && s.rows[id].cancelRequestedAt.Some?
    ensures var s' := Run(cfg, s, actions);
            && id in s'.rows && s'.rows[id].cancelRequestedAt == s.rows[id].cancelRequestedAt
            && !s'.rows[id].status.Completed? && !s'.rows[id].status.WaitingInput?
  {
    ReachableInv(cfg, s);
    RunKeeps(cfg, s, actions);
    hide RunOk, Answered;
    var s' := Run(cfg, s, actions);
    assert Evolves(s.rows[id], s'.rows[id]) && RowOk(cfg, s'.rows[id]);
  }

  /** The execution was cancelled, or its cancellation is requested. */
  predicate Stopped(r: Row) {
    r.status.Cancelled? || (r.cancelRequestedAt.Some? && !r.status.Completed? && !r.status.WaitingInput?)
  }

  lemma {:induction false} StoppedStays(cfg: Settings, s: System, actions: seq<Action>, id: Id)
    requires Sound(cfg, s) && id in s.rows && Stopped(s.rows[id])
    ensures var s' := Run(cfg, s, actions);
            && Sound(cfg, s') && id in s'.rows && Stopped(s'.rows[id])
            && (s.rows[id].status.Cancelled? ==> s'.rows[id].status.Cancelled?)
  {
    RunKeeps(cfg, s, actions);
    hide RunOk, Answered, Handed, Delivering, Run;
    var s' := Run(cfg, s, actions);
    assert Evolves(s.rows[id], s'.rows[id]) && RowOk(cfg, s'.rows[id]);
  }

  /** No worker gets past its start gate with a stopped execution. */
  lemma StoppedIsNotStarted(cfg: Settings, s: System, w: Id)
    requires Known(s, w) && Stopped(s.rows[s.runs[w].exec]) && s.runs[w].phase.Starting?
    ensures !Apply(cfg, s, Start(w)).runs[w].phase.Working?
  {
  }

  /** A stopped execution neither completes nor waits for its user nor gets past a start gate any more. */
  ghost predicate NeverRunsOn(cfg: Settings, s: System, id: Id) {
    && id in s.rows && !s.rows[id].status.Completed? && !s.rows[id].status.WaitingInput?
    && forall w | Known(s, w) && s.runs[w].exec == id && s.runs[w].phase.Starting? ::
         !Apply(cfg, s, Start(w)).runs[w].phase.Working?
  }

  lemma StoppedNeverRunsOn(cfg: Settings, s: System, id: Id)
    requires id in s.rows && Stopped(s.rows[id])
    ensures NeverRunsOn(cfg, s, id)
  {
    forall w | Known(s, w) && s.runs[w].exec == id && s.runs[w].phase.Starting?
      ensures !Apply(cfg, s, Start(w)).runs[w].phase.Working?
    {
      StoppedIsNotStarted(cfg, s, w);
    }
  }

  /**
   After a cancel of a busy execution no continuation completes it, lets it wait for its user again, or lets a
   worker past the start gate with it; one that was not running stays cancelled.
   */
  lemma {:induction false} CancelIsFinal(cfg: Settings, s: System, actions: seq<Action>, id: Id)
    requires Reachable(cfg, s) && id in s.rows && s.rows[id].status.Busy()
    ensures var s' := Run(cfg, Apply(cfg, s, CancelTurn(id)), actions);
            NeverRunsOn(cfg, s', id) && (!s.rows[id].status.Running? ==> s'.rows[id].status.Cancelled?)
  {
    ReachableInv(cfg, s);
    SoundStep(cfg, s, CancelTurn(id));
    CancelTakesEffect(cfg, s, id);
    hide Sound, Run, Apply, NeverRunsOn, Reachable;
    StoppedStays(cfg, Apply(cfg, s, CancelTurn(id)), actions, id);
    StoppedNeverRunsOn(cfg, Run(cfg, Apply(cfg, s, CancelTurn(id)), actions), id);
  }

  /** The same for every busy execution of a user who is disabled. */
  lemma {:induction false} DisableIsFinal(cfg: Settings, s: System, actions: seq<Action>, user: Id, id: Id)
    requires Reachable(cfg, s) && id in s.rows && s.rows[id].user == user && s.rows[id].status.Busy()
    ensures var s' := Run(cfg, Apply(cfg, s, DisableUser(user)), actions);
            NeverRunsOn(cfg, s', id) && (!s.rows[id].status.Running? ==> s'.rows[id].status.Cancelled?)
  {
    ReachableInv(cfg, s);
    SoundStep(cfg, s, DisableUser(user));
    DisableTakesEffect(cfg, s, user, id);
    hide Sound, Run, Apply, NeverRunsOn, Reachable;
    StoppedStays(cfg, Apply(cfg, s, DisableUser(user)), actions, id);
    StoppedNeverRunsOn(cfg, Run(cfg, Apply(cfg, s, DisableUser(user)), actions), id);
  }

  /** Why H1 is needed: a cancel between the runner's fence and its commits is overtaken. */
  lemma UnfencedFinishLosesCancel(r: Row, w: Id, request: Option<nat>, now: Time)
    requires r.status.Running? && FenceOf(r, w).Pass?
    ensures var cancelled := CancelRow(r, now);
            && FinishRow(cancelled, w, request, now).status.Cancelled?
            && EndRow(cancelled, Completed, NoError, AttemptCompleted, now).status.Completed?
            && EndRow(cancelled, Completed, NoError, AttemptCompleted, now).cancelRequestedAt.Some?
  {
  }

  /** The same for a suspension: the execution waits for input, and resuming it even clears the request. */
  lemma UnfencedSuspendLosesCancel(r: Row, w: Id, request: Option<nat>, raised: Interrupt, value: Token, now: Time)
    requires r.status.Running? && FenceOf(r, w).Pass?
    ensures var cancelled := CancelRow(r, now);
            var waiting := WaitingRow(cancelled, request, raised, now);
            && SuspendRow(cancelled, w, request, raised, now).status.Cancelled?
            && waiting.status.WaitingInput? && waiting.cancelRequestedAt == Some(now)
            && ResumedRow(waiting, value, now).cancelRequestedAt == None
  {
  }

  /** And a failure between that commit and the closing of the attempt would overwrite the result. */
  lemma LateFailureOverwritesCompleted(r: Row, w: Id, request: Option<nat>, now: Time)
    requires r.status.Running? && FenceOf(r, w).Pass?
    ensures var finished := FinishRow(r, w, request, now);
            finished.status.Completed? && FailedRow(finished, now).status.Failed?
  {
  }

  // ---------------------------------------------------------------- resume requests

  /** At most one resume request is open, it is the newest, and each interrupt has one request. */
  lemma SingleOpenRequest(cfg: Settings, s: System, id: Id, i: nat, j: nat)
    requires Reachable(cfg, s) && id in s.rows && i < |s.rows[id].resumes| && j < |s.rows[id].resumes|
    ensures s.rows[id].resumes[i].Open() && s.rows[id].resumes[j].Open() ==> i == j == |s.rows[id].resumes| - 1
    ensures s.rows[id].resumes[i].interruptId == s.rows[id].resumes[j].interruptId ==> i == j
  {
    ReachableInv(cfg, s);
    hide RunOk, Answered;
    assert RowOk(cfg, s.rows[id]);
  }

  /** A request keeps its interrupt and value for good, and a consumed one stays consumed. */
  lemma {:induction false} RequestsArePermanent(cfg: Settings, s: System, actions: seq<Action>, id: Id, k: nat)
    requires Reachable(cfg, s) && id in s.rows && k < |s.rows[id].resumes|
    ensures var s' := Run(cfg, s, actions);
            && id in s'.rows && k < |s'.rows[id].resumes|
            && var a, b := s.rows[id].resumes[k], s'.rows[id].resumes[k];
               && a.interruptId == b.interruptId && a.value == b.value && a.callsHash == b.callsHash
               && (a.status.Consumed? ==> b.status.Consumed?)
  {
    ReachableInv(cfg, s);
    RunKeeps(cfg, s, actions);
    hide Inv;
    var s' := Run(cfg, s, actions);
    assert RequestKept(s.rows[id].resumes[k], s'.rows[id].resumes[k]);
  }

  /**
   A value waiting to be handed to the graph is the one recorded for the only interrupt the checkpoint shows.
   If there is no checkpoint any more, one that showed the interrupt was deleted, or it was answered before.
   */
  lemma HandoverMatchesCheckpoint(cfg: Settings, s: System, w: Id)
    requires Reachable(cfg, s) && MayWork(s, w) && s.runs[w].answer.Some?
    ensures var r := s.rows[s.runs[w].exec];
            && s.runs[w].resume.Some? && s.runs[w].resume.value < |r.resumes|
            && var request := r.resumes[s.runs[w].resume.value];
               && request.value == s.runs[w].answer.value && request.status.Claimed?
               && if r.session in s.threads then s.threads[r.session].Keys == {request.interruptId}
                  else Settled(s, s.runs[w].exec, request.interruptId)
  {
    ReachableInv(cfg, s);
    HolderIsNamed(cfg, s, w);
    if Session(s, w) !in s.threads {
      LostIsSettled(cfg, s, w);
    }
    hide Inv, Handed, Delivering, Settled;
  }

  /** A consumed request had its value handed to the graph, unless a checkpoint showing its interrupt was deleted. */
  lemma ConsumedWasHanded(cfg: Settings, s: System, id: Id, k: nat)
    requires Reachable(cfg, s) && id in s.rows && k < |s.rows[id].resumes| && s.rows[id].resumes[k].status.Consumed?
    ensures var request := s.rows[id].resumes[k];
            || (id, request.interruptId) in s.cleared
            || exists n | 0 <= n < |s.answers| :: s.answers[n] == Answer(id, request.interruptId, request.value)
  {
    ReachableInv(cfg, s);
    var r := s.rows[id];
    assert RowHanded(s, id) && RowOk(cfg, r);
    if (id, r.resumes[k].interruptId) !in s.cleared {
      var n :| 0 <= n < |s.answers| && s.answers[n].exec == id && s.answers[n].interrupt == r.resumes[k].interruptId;
      assert Answered(r, s.answers[n].interrupt, s.answers[n].value);
    }
  }

  /** Over a whole history, an interrupt is only ever answered with one value: the recorded one. */
  lemma AnswersAreRecorded(cfg: Settings, s: System, n: nat, m: nat)
    requires Reachable(cfg, s) && n < |s.answers| && m < |s.answers|
    requires s.answers[n].exec == s.answers[m].exec && s.answers[n].interrupt == s.answers[m].interrupt
    ensures s.answers[n].value == s.answers[m].value && s.answers[n].exec in s.rows
    ensures exists k | 0 <= k < |s.rows[s.answers[n].exec].resumes| ::
              var request := s.rows[s.answers[n].exec].resumes[k];
              request.interruptId == s.answers[n].interrupt && request.value == s.answers[n].value
  {
    ReachableInv(cfg, s);
    hide RunOk;
    var r := s.rows[s.answers[n].exec];
    assert RowOk(cfg, r);
    assert Answered(r, s.answers[n].interrupt, s.answers[n].value);
    assert Answered(r, s.answers[m].interrupt, s.answers[m].value);
  }

  // ---------------------------------------------------------------- attempts

  /** Ordinals are exactly 1..attempt_count, the last attempt is current, the limit holds for life. */
  lemma AttemptLedger(cfg: Settings, s: System, id: Id)
    requires Reachable(cfg, s) && id in s.rows
    ensures var r := s.rows[id];
            && |r.attempts| == r.attemptCount <= cfg.maxAttempts
            && (forall i | 0 <= i < |r.attempts| :: r.attempts[i].ordinal == i + 1)
            && (r.attemptCount > 0 ==> r.currentAttempt == Some(r.attemptCount - 1))
  {
    ReachableInv(cfg, s);
    hide RunOk, Answered;
    assert RowOk(cfg, s.rows[id]);
  }

  /** An attempt is never renumbered or relabelled, and once closed it never changes at all. */
  lemma {:induction false} ClosedAttemptsAreFrozen(cfg: Settings, s: System, actions: seq<Action>, id: Id, i: nat)
    requires Reachable(cfg, s) && id in s.rows && i < |s.rows[id].attempts|
    ensures var s' := Run(cfg, s, actions);
            && id in s'.rows && i < |s'.rows[id].attempts|
            && var a, b := s.rows[id].attempts[i], s'.rows[id].attempts[i];
               && a.ordinal == b.ordinal && a.kind == b.kind && a.worker == b.worker
               && (a.finishedAt.Some? ==> a == b)
  {
    ReachableInv(cfg, s);
    RunKeeps(cfg, s, actions);
    hide Inv;
    var s' := Run(cfg, s, actions);
    assert AttemptKept(s.rows[id].attempts[i], s'.rows[id].attempts[i]);
  }
}
