/**
 The outbox and the broker: an execution that waits for a worker and whose outbox row says published has a
 message on the broker that no claim has used up.
 */
module LifecycleDelivery {
  import opened Wrappers
  import opened Lifecycle
  import opened LifecycleSystem
  import opened LifecycleInvariant
  import opened LifecycleSteps

  predicate IsPublished(r: Row) {
    r.outbox.Some? && r.outbox.value.status.Published?
  }

  /** A row that waits for a worker and is published, or about to be by a dispatcher that sent, has a message. */
  ghost predicate Announced(s: System, id: Id) {
    id in s.rows && Unclaimed(s.rows[id]) ==>
      && (IsPublished(s.rows[id]) ==> id in s.queue)
      && forall d | (d, id) in s.delivered && LockedBy(s.rows[id], d) :: id in s.queue
  }

  ghost predicate Delivering(s: System) {
    s.delivered <= s.locked && forall id: Id :: Announced(s, id)
  }

  /** The row waits for a worker only if it just was queued, or waited before with the same outbox row. */
  ghost predicate KeepsOutbox(r: Row, r': Row) {
    Unclaimed(r') ==> r'.outbox.value.status.Queued? || (Unclaimed(r) && r'.outbox == r.outbox)
  }

  /** Rows change as above, or are new and queued; messages of waiting rows stay. */
  lemma OutboxesKept(s: System, s': System)
    requires Delivering(s) && s'.delivered <= s'.locked && s'.delivered <= s.delivered
    requires forall id | id in s'.rows ::
               if id in s.rows then KeepsOutbox(s.rows[id], s'.rows[id])
               else s'.rows[id].outbox.Some? && s'.rows[id].outbox.value.status.Queued?
    requires forall id | id in s'.rows && Unclaimed(s'.rows[id]) :: id in s.queue ==> id in s'.queue
    ensures Delivering(s')
  {
    hide Unclaimed;
    forall id: Id ensures Announced(s', id) {
      assert Announced(s, id);
    }
  }

  // ---------------------------------------------------------------- row transactions

  /** Whatever a claim does, the row no longer waits for a worker afterwards. */
  lemma ClaimedIsTaken(cfg: Settings, r: Row, w: Id, now: Time, context: ClaimContext, active: bool,
                       view: CheckpointView)
    ensures !Unclaimed(ClaimRow(cfg, r, w, now, context, active, view).0)
  {
    hide CheckpointObjection;
  }

  lemma ServiceKeepsOutbox(cfg: Settings, r: Row, value: Option<Token>, now: Time)
    ensures KeepsOutbox(r, CancelRow(r, now)) && KeepsOutbox(r, DisableRow(r, now))
    ensures KeepsOutbox(r, ResumeRow(r, value, now))
    ensures KeepsOutbox(r, ExpireUnclaimed(cfg, r, now)) && KeepsOutbox(r, RecoverLease(cfg, r, now))
  {
    hide ResumeObjection, CloseAttempt;
  }

  lemma WorkerKeepsOutbox(cfg: Settings, r: Row, w: Id, request: Option<nat>, raised: Interrupt, now: Time)
    ensures KeepsOutbox(r, StartGate(cfg, r, now).0) && KeepsOutbox(r, HeartbeatRow(cfg, r, w, now))
    ensures KeepsOutbox(r, SuspendRow(r, w, request, raised, now)) && KeepsOutbox(r, FinishRow(r, w, request, now))
    ensures KeepsOutbox(r, FailedRow(r, now))
  {
    hide CloseAttempt, ConsumeResume;
  }

  // ---------------------------------------------------------------- dispatcher steps

  lemma LockedByOne(r: Row, d: Id, now: Time)
    ensures var r' := LockRow(r, d, now);
            r' == r || (!IsPublished(r') && forall d' | LockedBy(r', d') :: d' == d)
  {
  }

  lemma LockDelivers(s: System, d: Id, batch: set<Id>)
    requires Delivering(s)
    ensures Delivering(LockStep(s, d, batch))
  {
    if Idle(s, d) {
      hide LockRow, LockedBy, Unclaimed, IsPublished;
      var s' := LockStep(s, d, batch);
      forall id: Id ensures Announced(s', id) {
        assert Announced(s, id);
        if id in s.rows {
          LockedByOne(s.rows[id], d, s.now);
        }
      }
    }
  }

  lemma SendDelivers(s: System, d: Id, id: Id)
    requires Delivering(s)
    ensures Delivering(SendStep(s, d, id))
  {
    var s' := SendStep(s, d, id);
    forall i: Id ensures Announced(s', i) {
      assert Announced(s, i);
    }
  }

  lemma SettleDelivers(s: System, d: Id, id: Id, publish: bool)
    requires Delivering(s) && id in s.rows && (publish ==> (d, id) in s.delivered)
    ensures Delivering(Settle(s, d, id, if publish then MarkPublishedRow(s.rows[id], d, s.now)
                                        else MarkRetryRow(s.rows[id], d, s.now)))
  {
    hide Backoff;
    var s' := Settle(s, d, id, if publish then MarkPublishedRow(s.rows[id], d, s.now)
                               else MarkRetryRow(s.rows[id], d, s.now));
    forall i: Id ensures Announced(s', i) {
      assert Announced(s, i);
    }
  }

  // ---------------------------------------------------------------- all actions

  /** Actions that change at most rows, in ways that keep the outbox. */
  lemma ServiceDelivers(cfg: Settings, s: System, a: Action)
    requires Delivering(s)
    requires a.CreateTurn? || a.CancelTurn? || a.ResumeTurn? || a.DisableUser? || a.Recover?
    ensures Delivering(Apply(cfg, s, a))
  {
    if a.Recover? {
      ExpireDelivers(cfg, s, a.unclaimed);
      RecoverDelivers(cfg, ExpireAll(cfg, s, a.unclaimed), a.expired);
    } else {
      hide KeepsOutbox, CancelRow, DisableRow, ResumeRow, Replays, SessionBusy, Unclaimed;
      var s' := Apply(cfg, s, a);
      forall i | i in s'.rows
        ensures if i in s.rows then KeepsOutbox(s.rows[i], s'.rows[i])
                else s'.rows[i].outbox.Some? && s'.rows[i].outbox.value.status.Queued?
      {
        if i in s.rows {
          ServiceKeepsOutbox(cfg, s.rows[i], if a.ResumeTurn? then a.value else None, s.now);
          SameOutbox(s.rows[i]);
        }
      }
      OutboxesKept(s, s');
    }
  }

  lemma ExpireDelivers(cfg: Settings, s: System, unclaimed: set<Id>)
    requires Delivering(s)
    ensures Delivering(ExpireAll(cfg, s, unclaimed))
  {
    hide KeepsOutbox, ExpireUnclaimed, Unclaimed;
    var s' := ExpireAll(cfg, s, unclaimed);
    forall i | i in s'.rows ensures KeepsOutbox(s.rows[i], s'.rows[i]) {
      ServiceKeepsOutbox(cfg, s.rows[i], None, s.now);
      SameOutbox(s.rows[i]);
    }
    OutboxesKept(s, s');
  }

  lemma RecoverDelivers(cfg: Settings, s: System, expired: set<Id>)
    requires Delivering(s)
    ensures Delivering(RecoverAll(cfg, s, expired))
  {
    hide KeepsOutbox, RecoverLease, Unclaimed;
    var s' := RecoverAll(cfg, s, expired);
    forall i | i in s'.rows ensures KeepsOutbox(s.rows[i], s'.rows[i]) {
      ServiceKeepsOutbox(cfg, s.rows[i], None, s.now);
      SameOutbox(s.rows[i]);
    }
    OutboxesKept(s, s');
  }

  lemma SameOutbox(r: Row)
    ensures KeepsOutbox(r, r)
  {
  }

  /** A worker changes its own row only. */
  lemma OneRowDelivers(s: System, s': System, id: Id)
    requires Delivering(s) && id in s.rows && id in s'.rows && s'.rows == s.rows[id := s'.rows[id]]
    requires KeepsOutbox(s.rows[id], s'.rows[id])
    requires s'.queue == s.queue && s'.delivered == s.delivered && s'.locked == s.locked
    ensures Delivering(s')
  {
    hide KeepsOutbox, Unclaimed, Announced;
    forall i | i in s'.rows ensures i in s.rows && KeepsOutbox(s.rows[i], s'.rows[i]) {
      SameOutbox(s.rows[i]);
    }
    OutboxesKept(s, s');
  }

  lemma ClaimDelivers(cfg: Settings, s: System, id: Id, w: Id, context: ClaimContext, readable: bool)
    requires Delivering(s)
    ensures Delivering(ClaimStep(cfg, s, id, w, context, readable))
  {
    if id in s.rows && id in s.queue && w !in s.used {
      var s' := ClaimStep(cfg, s, id, w, context, readable);
      ClaimedIsTaken(cfg, s.rows[id], w, s.now, context, s.rows[id].user in s.active,
                     Checkpoint(s, s.rows[id].session, readable));
      hide Unclaimed, Announced, ClaimRow;
      forall i | i in s'.rows ensures i in s.rows && KeepsOutbox(s.rows[i], s'.rows[i]) {
        SameOutbox(s.rows[i]);
      }
      OutboxesKept(s, s');
    }
  }

  lemma StartDelivers(cfg: Settings, s: System, w: Id)
    requires Delivering(s)
    ensures Delivering(StartStep(cfg, s, w)) && Delivering(HeartbeatStep(cfg, s, w))
  {
    hide Delivering, KeepsOutbox, StartGate, HeartbeatRow;
    if Known(s, w) {
      var id := s.runs[w].exec;
      WorkerKeepsOutbox(cfg, s.rows[id], w, None, Interrupt(NO_ID, Digest(0, 0)), s.now);
      SameOutbox(s.rows[id]);
      OneRowDelivers(s, StartStep(cfg, s, w), id);
      OneRowDelivers(s, HeartbeatStep(cfg, s, w), id);
    }
  }

  lemma EndDelivers(cfg: Settings, s: System, w: Id)
    requires Delivering(s)
    ensures Delivering(SuspendStep(s, w)) && Delivering(FinishStep(s, w)) && Delivering(FailStep(s, w))
  {
    hide Delivering, KeepsOutbox, SuspendRow, FinishRow, FailedRow, FenceOf;
    if Known(s, w) {
      var run := s.runs[w];
      var id := run.exec;
      WorkerKeepsOutbox(cfg, s.rows[id], w, run.resume, run.suspended.Or(Interrupt(NO_ID, Digest(0, 0))), s.now);
      SameOutbox(s.rows[id]);
      OneRowDelivers(s, SuspendStep(s, w), id);
      OneRowDelivers(s, FinishStep(s, w), id);
      OneRowDelivers(s, FailStep(s, w), id);
    }
  }

  /** Steps that touch no row and use up no message. */
  lemma SameRowsDeliver(s: System, s': System)
    requires Delivering(s) && s'.rows == s.rows && s.queue <= s'.queue
    requires s'.delivered <= s.delivered
    requires s.delivered <= s.locked ==> s'.delivered <= s'.locked
    ensures Delivering(s')
  {
    hide Unclaimed;
    forall id: Id ensures Announced(s', id) {
      assert Announced(s, id);
    }
  }

  lemma AnswerDelivers(s: System, w: Id, interrupt: Id)
    requires Delivering(s)
    ensures Delivering(AnswerStep(s, w, interrupt)) && Delivering(DropStep(s, w))
  {
    hide Delivering, MayWork, Shown, Session;
    SameRowsDeliver(s, AnswerStep(s, w, interrupt));
    SameRowsDeliver(s, DropStep(s, w));
  }

  lemma SaveDelivers(s: System, w: Id, raised: Interrupt)
    requires Delivering(s)
    ensures Delivering(SaveStep(s, w)) && Delivering(RaiseStep(s, w, raised))
  {
    hide Delivering, MayWork, Session;
    SameRowsDeliver(s, SaveStep(s, w));
    SameRowsDeliver(s, RaiseStep(s, w, raised));
  }

  lemma CleanupDelivers(s: System, w: Id)
    requires Delivering(s)
    ensures Delivering(CleanupStep(s, w))
  {
    hide Delivering, ShownBy, Session;
    SameRowsDeliver(s, CleanupStep(s, w));
  }

  lemma WorkerDelivers(cfg: Settings, s: System, a: Action)
    requires Delivering(s) && ByWorker(a)
    ensures Delivering(Apply(cfg, s, a))
  {
    hide Delivering, ClaimStep, StartStep, HeartbeatStep, SuspendStep, FinishStep, CleanupStep, FailStep;
    match a {
      case Claim(id, w, context, readable) => ClaimDelivers(cfg, s, id, w, context, readable);
      case Start(w) => StartDelivers(cfg, s, w);
      case Heartbeat(w) => StartDelivers(cfg, s, w);
      case Suspend(w) => EndDelivers(cfg, s, w);
      case Finish(w) => EndDelivers(cfg, s, w);
      case Cleanup(w) => CleanupDelivers(s, w);
      case Fail(w) => EndDelivers(cfg, s, w);
      case Crash(_) => SameRowsDeliver(s, Apply(cfg, s, a));
    }
  }

  lemma GraphDelivers(cfg: Settings, s: System, a: Action)
    requires Delivering(s) && ByGraph(a)
    ensures Delivering(Apply(cfg, s, a))
  {
    hide Delivering, AnswerStep, DropStep, SaveStep, RaiseStep;
    match a {
      case GraphAnswer(w, i) => AnswerDelivers(s, w, i);
      case GraphDrop(w) => AnswerDelivers(s, w, NO_ID);
      case GraphSave(w) => SaveDelivers(s, w, Interrupt(NO_ID, Digest(0, 0)));
      case GraphSuspend(w, raised) => SaveDelivers(s, w, raised);
    }
  }

  lemma MessagesDeliver(s: System, d: Id, id: Id)
    requires Delivering(s)
    ensures Delivering(DispatcherDiesStep(s, d))
    ensures Delivering(AcknowledgeStep(s, id)) && Delivering(RedeliverStep(s, id))
  {
    hide Delivering;
    SameRowsDeliver(s, DispatcherDiesStep(s, d));
    SameRowsDeliver(s, AcknowledgeStep(s, id));
    SameRowsDeliver(s, RedeliverStep(s, id));
  }

  lemma PublishDelivers(s: System, d: Id, id: Id)
    requires Delivering(s)
    ensures Delivering(PublishStep(s, d, id)) && Delivering(RetryStep(s, d, id))
  {
    hide Delivering, Settle, MarkPublishedRow, MarkRetryRow;
    if id in s.rows {
      SettleDelivers(s, d, id, false);
      if (d, id) in s.delivered {
        SettleDelivers(s, d, id, true);
      }
    }
  }

  lemma BrokerDelivers(cfg: Settings, s: System, a: Action)
    requires Delivering(s) && ByBroker(a)
    ensures Delivering(Apply(cfg, s, a))
  {
    hide Delivering, LockStep, SendStep, PublishStep, RetryStep, DispatcherDiesStep, AcknowledgeStep, RedeliverStep;
    match a {
      case LockOutbox(d, batch) => LockDelivers(s, d, batch);
      case Send(d, id) => SendDelivers(s, d, id);
      case MarkPublished(d, id) => PublishDelivers(s, d, id);
      case MarkRetry(d, id) => PublishDelivers(s, d, id);
      case DispatcherDies(d) => MessagesDeliver(s, d, NO_ID);
      case Acknowledge(id) => MessagesDeliver(s, NO_ID, id);
      case Redeliver(id) => MessagesDeliver(s, NO_ID, id);
    }
  }

  lemma ApplyDelivers(cfg: Settings, s: System, a: Action)
    requires Delivering(s)
    ensures Delivering(Apply(cfg, s, a))
  {
    hide Delivering, Apply;
    if ByWorker(a) {
      WorkerDelivers(cfg, s, a);
    } else if ByGraph(a) {
      GraphDelivers(cfg, s, a);
    } else if ByBroker(a) {
      BrokerDelivers(cfg, s, a);
    } else if a.Tick? {
      SameRowsDeliver(s, s.(now := s.now + a.seconds));
      assert Apply(cfg, s, a) == s.(now := s.now + a.seconds) by { TickIs(cfg, s, a); }
    } else if a.EnableUser? {
      SameRowsDeliver(s, s.(active := s.active + {a.user}));
      assert Apply(cfg, s, a) == s.(active := s.active + {a.user}) by { TickIs(cfg, s, a); }
    } else {
      ServiceDelivers(cfg, s, a);
    }
  }

  lemma TickIs(cfg: Settings, s: System, a: Action)
    ensures a.Tick? ==> Apply(cfg, s, a) == s.(now := s.now + a.seconds)
    ensures a.EnableUser? ==> Apply(cfg, s, a) == s.(active := s.active + {a.user})
  {
  }
}
