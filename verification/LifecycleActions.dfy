/**
 What single actions do to the store when they may happen, and that they do nothing otherwise. Together with
 `LifecycleRows` this says what a run is made of; the invariants and theorems say what runs can never do.
 */
module LifecycleActions {
  import opened Wrappers
  import opened Lifecycle
  import opened LifecycleSystem
  import opened LifecycleInvariant
  import opened LifecycleRows

  /** A turn is created exactly if the session has no unfinished turn and the idempotency key is new there. */
  lemma CreateTakesEffect(cfg: Settings, s: System, id: Id, session: Id, user: Id, key: Option<Token>)
    ensures var s' := Apply(cfg, s, CreateTurn(id, session, user, key));
            var busy := exists o | o in s.rows :: s.rows[o].session == session
                                                  && s.rows[o].status in {Pending, Running, WaitingInput};
            var replayed := key.Some? && exists o | o in s.rows :: s.rows[o].session == session && s.rows[o].key == key;
            if id in s.rows || busy || replayed then s' == s
            else s' == s.(rows := s.rows[id := NewRow(session, user, key, s.now)])
  {
    hide NewRow;
  }

  /** A cancel ends a pending or waiting execution, leaves a request on a running one, and touches nothing else. */
  lemma CancelTakesEffect(cfg: Settings, s: System, id: Id)
    requires id in s.rows
    ensures var r, s' := s.rows[id], Apply(cfg, s, CancelTurn(id));
            && id in s'.rows && s' == s.(rows := s.rows[id := s'.rows[id]])
            && (r.status in {Pending, WaitingInput} ==>
                  s'.rows[id] == r.(status := Cancelled, finishedAt := Some(s.now), interrupt := None))
            && (r.status == Running ==>
                  s'.rows[id] == r.(cancelRequestedAt := s'.rows[id].cancelRequestedAt)
                  && s'.rows[id].cancelRequestedAt.Some?)
            && (r.status.Terminal() ==> s' == s)
  {
    CancelExactly(s.rows[id], s.now);
    hide CancelRow;
  }

  /** Disabling a user does the same to all of the user's executions, and to no other. */
  lemma DisableTakesEffect(cfg: Settings, s: System, user: Id, id: Id)
    requires id in s.rows
    ensures var r, s' := s.rows[id], Apply(cfg, s, DisableUser(user));
            && s' == s.(rows := s'.rows, active := s'.active) && s'.rows.Keys == s.rows.Keys
            && (forall u :: u in s'.active <==> u in s.active && u != user)
            && (r.user != user || r.status.Terminal() ==> s'.rows[id] == r)
            && (r.user == user && r.status in {Pending, WaitingInput} ==>
                  s'.rows[id].status == Cancelled && s'.rows[id].error == UserDisabled
                  && (r.outbox.Some? ==> s'.rows[id].outbox == Some(r.outbox.value.(status := Withdrawn))))
            && (r.user == user && r.status == Running ==>
                  s'.rows[id] == r.(cancelRequestedAt := s'.rows[id].cancelRequestedAt)
                  && s'.rows[id].cancelRequestedAt.Some?)
  {
    DisableExactly(s.rows[id], s.now);
    hide DisableRow;
  }

  /** A resume concerns its own execution only, and so do time and the list of active users. */
  lemma RestTakesEffect(cfg: Settings, s: System, id: Id, value: Option<Token>, seconds: nat, user: Id)
    ensures Apply(cfg, s, ResumeTurn(id, value))
         == if id in s.rows then s.(rows := s.rows[id := ResumeRow(s.rows[id], value, s.now)]) else s
    ensures id !in s.rows ==> Apply(cfg, s, CancelTurn(id)) == s
    ensures Apply(cfg, s, Tick(seconds)) == s.(now := s.now + seconds)
    ensures var s' := Apply(cfg, s, EnableUser(user));
            s' == s.(active := s'.active) && forall u :: u in s'.active <==> u in s.active || u == user
  {
    hide ResumeRow;
  }

  /** The recovery beat expires and recovers the rows it could lock, and leaves all others alone. */
  lemma RecoverTakesEffect(cfg: Settings, s: System, unclaimed: set<Id>, expired: set<Id>, id: Id)
    requires id in s.rows
    ensures var s' := Apply(cfg, s, Recover(unclaimed, expired));
            && s' == s.(rows := s'.rows) && s'.rows.Keys == s.rows.Keys
            && (id !in unclaimed && id !in expired ==> s'.rows[id] == s.rows[id])
            && (id in unclaimed && id !in expired ==> s'.rows[id] == ExpireUnclaimed(cfg, s.rows[id], s.now))
            && (id !in unclaimed && id in expired ==> s'.rows[id] == RecoverLease(cfg, s.rows[id], s.now))
            && (id in unclaimed && id in expired ==>
                  s'.rows[id] == RecoverLease(cfg, ExpireUnclaimed(cfg, s.rows[id], s.now), s.now))
  {
    hide ExpireUnclaimed, RecoverLease;
  }

  /** A dispatcher locks the due rows of its batch; while it has unsettled ones it locks nothing. */
  lemma LockTakesEffect(cfg: Settings, s: System, d: Id, batch: set<Id>, id: Id)
    requires id in s.rows
    ensures var s' := Apply(cfg, s, LockOutbox(d, batch));
            var due := id in batch && s.rows[id].outbox.Some? && Dispatchable(s.rows[id].outbox.value, s.now);
            && s' == s.(rows := s'.rows, locked := s'.locked) && s'.rows.Keys == s.rows.Keys
            && ((exists o :: (d, o) in s.locked) ==> s' == s)
            && ((forall o :: (d, o) !in s.locked) ==>
                  && s'.rows[id] == (if due then LockRow(s.rows[id], d, s.now) else s.rows[id])
                  && ((d, id) in s'.locked <==> due)
                  && forall e, o | e != d :: (e, o) in s'.locked <==> (e, o) in s.locked)
  {
    hide Dispatchable;
    assert id in batch && !(s.rows[id].outbox.Some? && Dispatchable(s.rows[id].outbox.value, s.now))
           ==> LockRow(s.rows[id], d, s.now) == s.rows[id];
    hide LockRow;
  }

  /** A send puts one message on the broker; publishing or retrying settles the row with the dispatcher. */
  lemma SettleTakesEffect(cfg: Settings, s: System, d: Id, id: Id)
    requires id in s.rows && (d, id) in s.locked
    ensures var sent := Apply(cfg, s, Send(d, id));
            && sent == s.(queue := s.queue + multiset{id}, delivered := s.delivered + {(d, id)})
            && Apply(cfg, sent, MarkPublished(d, id))
               == sent.(rows := s.rows[id := MarkPublishedRow(s.rows[id], d, s.now)],
                        locked := s.locked - {(d, id)}, delivered := s.delivered - {(d, id)})
    ensures Apply(cfg, s, MarkRetry(d, id))
         == s.(rows := s.rows[id := MarkRetryRow(s.rows[id], d, s.now)],
               locked := s.locked - {(d, id)}, delivered := s.delivered - {(d, id)})
  {
    hide MarkPublishedRow, MarkRetryRow;
    assert s.delivered + {(d, id)} - {(d, id)} == s.delivered - {(d, id)};
  }

  /** What was not locked or sent cannot be settled. */
  lemma NothingToSettle(cfg: Settings, s: System, d: Id, id: Id)
    ensures (d, id) !in s.locked ==> Apply(cfg, s, Send(d, id)) == s && Apply(cfg, s, MarkRetry(d, id)) == s
    ensures (d, id) !in s.delivered ==> Apply(cfg, s, MarkPublished(d, id)) == s
  {
  }

  /** A dispatcher that dies forgets its batch; what it sent stays on the broker and its locks run out. */
  lemma DeathForgets(cfg: Settings, s: System, d: Id)
    ensures var s' := Apply(cfg, s, DispatcherDies(d));
            && s' == s.(locked := s'.locked, delivered := s'.delivered) && Idle(s', d)
            && forall e, o :: ((e, o) in s'.locked <==> (e, o) in s.locked && e != d)
                              && ((e, o) in s'.delivered <==> (e, o) in s.delivered && e != d)
  {
  }

  /** A claim moves one message aside; messages are never invented. */
  lemma ClaimKeepsMessages(cfg: Settings, s: System, id: Id, w: Id, context: ClaimContext, readable: bool)
    ensures var s' := Apply(cfg, s, Claim(id, w, context, readable));
            && s'.queue + s'.taken == s.queue + s.taken
            && (id in s.rows && id in s.queue && w !in s.used ==> s'.taken == s.taken + multiset{id})
  {
    hide ClaimRow, Checkpoint;
    if id in s.queue {
      assert s.queue - multiset{id} + (s.taken + multiset{id}) == s.queue + s.taken;
    }
  }

  /** A claimed message is acknowledged, or delivered once more. */
  lemma MessagesAreKept(cfg: Settings, s: System, id: Id)
    ensures id in s.taken ==>
              && Apply(cfg, s, Redeliver(id)) == s.(taken := s.taken - multiset{id}, queue := s.queue + multiset{id})
              && Apply(cfg, s, Acknowledge(id)) == s.(taken := s.taken - multiset{id})
    ensures id !in s.taken ==> Apply(cfg, s, Redeliver(id)) == s && Apply(cfg, s, Acknowledge(id)) == s
  {
    assert id !in s.taken ==> s.taken - multiset{id} == s.taken;
  }

  /** What a worker sees of the session's checkpoint when it claims. */
  ghost predicate Sees(s: System, session: Id, readable: bool, view: CheckpointView) {
    && (!readable ==> view.Unreadable?)
    && (readable && session in s.threads ==> view == Saved(s.threads[session]))
    && (readable && session !in s.threads ==> view.NoCheckpoint?)
  }

  /** A delivered message lets a new worker claim its execution; a granted one starts with its lease and its answer. */
  lemma ClaimTakesEffect(cfg: Settings, s: System, id: Id, w: Id, context: ClaimContext, readable: bool,
                         view: CheckpointView)
    requires id in s.rows && Sees(s, s.rows[id].session, readable, view)
    ensures var s' := Apply(cfg, s, Claim(id, w, context, readable));
            var claim := ClaimRow(cfg, s.rows[id], w, s.now, context, s.rows[id].user in s.active, view);
            if id !in s.queue || w in s.used then s' == s
            else
              && s' == s.(rows := s.rows[id := claim.0], used := s.used + {w}, runs := s'.runs,
                          queue := s.queue - multiset{id}, taken := s.taken + multiset{id})
              && s'.runs == if claim.1.Refused? then s.runs
                            else s.runs[w := WorkerRun(id, Starting, s.now + cfg.leaseSeconds, claim.1.resume,
                                                       claim.1.answer, None)]
  {
    hide ClaimRow;
    assert Checkpoint(s, s.rows[id].session, readable) == view;
  }

  /** The start gate is passed once, by a worker inside its lease. */
  lemma StartTakesEffect(cfg: Settings, s: System, w: Id)
    requires Known(s, w)
    ensures var s', id := Apply(cfg, s, Start(w)), s.runs[w].exec;
            var gate := StartGate(cfg, s.rows[id], s.now);
            if s.now < s.runs[w].leaseUntil && s.runs[w].phase == Starting
            then s' == s.(rows := s.rows[id := gate.0],
                          runs := s.runs[w := s.runs[w].(phase := if gate.1.Started? then Working else Phase.Ended)])
            else s' == s
  {
    hide StartGate;
  }

  /** A worker commits, inside its lease, what its graph came to, once the answer it was given is handed over. */
  lemma CommitTakesEffect(cfg: Settings, s: System, w: Id)
    requires Known(s, w)
    ensures var finished, suspended := Apply(cfg, s, Finish(w)), Apply(cfg, s, Suspend(w));
            var run, id := s.runs[w], s.runs[w].exec;
            var r := s.rows[id];
            if s.now < run.leaseUntil && run.phase == Working && run.answer.None?
            then
              if run.suspended.Some?
              then && finished == s
                   && suspended == s.(rows := s.rows[id := SuspendRow(r, w, run.resume, run.suspended.value, s.now)],
                                      runs := s.runs[w := run.(phase := Phase.Ended)])
              else && suspended == s
                   && finished == s.(rows := s.rows[id := FinishRow(r, w, run.resume, s.now)],
                                     runs := s.runs[w := run.(phase :=
                                       if r.worker == Some(w) && r.cancelRequestedAt.None? then Phase.Finished
                                       else Phase.Ended)])
            else finished == s && suspended == s
  {
    hide SuspendRow, FinishRow;
  }

  /** The cleanup deletes the session's checkpoint, once, whatever its state; what it showed is on record. */
  lemma CleanupTakesEffect(cfg: Settings, s: System, w: Id)
    requires Known(s, w)
    ensures var s', session := Apply(cfg, s, Cleanup(w)), s.rows[s.runs[w].exec].session;
            if s.runs[w].phase == Phase.Finished
            then && s' == s.(threads := s.threads - {session}, cleared := s'.cleared,
                             runs := s.runs[w := s.runs[w].(phase := Phase.Ended)])
                 && forall id: Id, i: Id :: (id, i) in s'.cleared <==>
                      || (id, i) in s.cleared
                      || (&& id in s.rows && s.rows[id].session == session
                          && session in s.threads && i in s.threads[session])
            else s' == s
  {
  }

  /** A graph drops the answer only when there is no checkpoint to hand it to. */
  lemma DropTakesEffect(cfg: Settings, s: System, w: Id)
    requires Known(s, w)
    ensures Apply(cfg, s, GraphDrop(w))
         == if && s.now < s.runs[w].leaseUntil && s.runs[w].phase == Working && s.runs[w].answer.Some?
               && s.rows[s.runs[w].exec].session !in s.threads
            then s.(runs := s.runs[w := s.runs[w].(answer := None)]) else s
  {
  }

  /** A heartbeat of the named worker moves the row's lease and the worker's own together. */
  lemma HeartbeatTakesEffect(cfg: Settings, s: System, w: Id)
    requires Known(s, w)
    ensures var s', id := Apply(cfg, s, Heartbeat(w)), s.runs[w].exec;
            var until := s.now + cfg.leaseSeconds;
            if s.rows[id].worker == Some(w) && s.rows[id].status in {Pending, Running, WaitingInput}
            then s' == s.(rows := s.rows[id := s.rows[id].(heartbeatAt := Some(s.now), leaseExpiresAt := Some(until))],
                          runs := s.runs[w := s.runs[w].(leaseUntil := until)])
            else s' == s
  {
  }

  /** A worker inside its lease that fails ends its execution as failed, unless that has ended before it started. */
  lemma FailTakesEffect(cfg: Settings, s: System, w: Id)
    requires Known(s, w)
    ensures var s', id := Apply(cfg, s, Fail(w)), s.runs[w].exec;
            if s.now < s.runs[w].leaseUntil && s.runs[w].phase in {Starting, Working}
            then && s' == s.(rows := s.rows[id := s'.rows[id]], runs := s.runs[w := s.runs[w].(phase := Phase.Ended)])
                 && (if s.runs[w].phase == Starting && s.rows[id].status.Terminal() then s'.rows[id] == s.rows[id]
                     else s'.rows[id] == FailedRow(s.rows[id], s.now) && s'.rows[id].status == Failed)
            else s' == s
  {
  }

  /** A crash loses the worker's own state and nothing that is stored. */
  lemma CrashLosesTheWorker(cfg: Settings, s: System, w: Id)
    ensures Apply(cfg, s, Crash(w)) == s.(runs := s.runs - {w})
  {
  }

  /** The graph is given an answer exactly for an interrupt its checkpoint shows, and only once by this worker. */
  lemma AnswerTakesEffect(cfg: Settings, s: System, w: Id, interrupt: Id)
    requires MayWork(s, w)
    ensures var s', id := Apply(cfg, s, GraphAnswer(w, interrupt)), s.runs[w].exec;
            var session := s.rows[id].session;
            if s.runs[w].answer.Some? && session in s.threads && interrupt in s.threads[session]
            then s' == s.(answers := s.answers + [Answer(id, interrupt, s.runs[w].answer.value)],
                          runs := s.runs[w := s.runs[w].(answer := None)])
            else s' == s
  {
  }

  /** A graph that saves has handed over its answer, and its checkpoint shows what it raised, or nothing. */
  lemma SaveTakesEffect(cfg: Settings, s: System, w: Id, raised: Interrupt)
    requires MayWork(s, w)
    ensures var saved, session := Apply(cfg, s, GraphSave(w)), s.rows[s.runs[w].exec].session;
            var suspended := Apply(cfg, s, GraphSuspend(w, raised));
            if s.runs[w].answer.None? && s.runs[w].suspended.None?
            then && saved == s.(threads := s.threads[session := map[]])
                 && suspended == s.(threads := s.threads[session := map[raised.id := raised.callsHash]],
                                    runs := s.runs[w := s.runs[w].(suspended := Some(raised))])
            else saved == s && suspended == s
  {
    assert s.runs[w].suspended.None? ==> s.runs[w := s.runs[w].(suspended := None)] == s.runs;
  }
}
