/**
 Where the user's answers go: a resume request is only consumed once its value was handed to the graph,
 unless a checkpoint that showed its interrupt was deleted.
 */
module LifecycleHandover {
  import opened Wrappers
  import opened Lifecycle
  import opened LifecycleSystem
  import opened LifecycleInvariant
  import opened LifecycleSteps

  /** The interrupt was answered, or a checkpoint that showed it was deleted. */
  ghost predicate Settled(s: System, id: Id, interrupt: Id) {
    || (id, interrupt) in s.cleared
    || exists n | 0 <= n < |s.answers| :: s.answers[n].exec == id && s.answers[n].interrupt == interrupt
  }

  ghost predicate Pends(s: System, id: Id, interrupt: Id) {
    Shown(s, id, interrupt) || Settled(s, id, interrupt)
  }

  ghost predicate RowHanded(s: System, id: Id) {
    id in s.rows ==>
      var r := s.rows[id];
      && (forall k | 0 <= k < |r.resumes| && r.resumes[k].status.Consumed? :: Settled(s, id, r.resumes[k].interruptId))
      && (!r.status.Terminal() ==>
            forall k | 0 <= k < |r.resumes| && r.resumes[k].Open() :: Pends(s, id, r.resumes[k].interruptId))
      && (r.status.WaitingInput? && r.interrupt.Some? ==> Pends(s, id, r.interrupt.value.id))
  }

  /** What a worker that is past the handover, or whose graph was interrupted, relies on. */
  ghost predicate RunHanded(s: System, w: Id) {
    Known(s, w) ==>
      var run := s.runs[w];
      var r := s.rows[run.exec];
      run.phase.Active() && r.worker == Some(w) && !r.status.Terminal() ==>
        && (run.resume.Some? ==>
              && run.resume.value < |r.resumes|
              && (run.answer.None? ==> Settled(s, run.exec, r.resumes[run.resume.value].interruptId)))
        && (run.suspended.Some? ==> Pends(s, run.exec, run.suspended.value.id))
  }

  ghost predicate Handed(s: System) {
    (forall id: Id :: RowHanded(s, id)) && forall w: Id :: RunHanded(s, w)
  }

  // ---------------------------------------------------------------- steps that keep what pends

  /** What pended or was settled still is. */
  ghost predicate PendsGrow(s: System, s': System) {
    && (forall id: Id, i: Id :: Settled(s, id, i) ==> Settled(s', id, i))
    && forall id: Id, i: Id :: Shown(s, id, i) ==> Pends(s', id, i)
  }

  /** The row consumes no request, and opens one only for the interrupt it waited on. */
  ghost predicate KeepsRequests(r: Row, r': Row) {
    && (forall k | 0 <= k < |r'.resumes| && r'.resumes[k].status.Consumed? ::
          k < |r.resumes| && r.resumes[k].status.Consumed?)
    && (!r'.status.Terminal() ==>
          forall k | 0 <= k < |r'.resumes| && r'.resumes[k].Open() ::
            || (k < |r.resumes| && r.resumes[k].Open())
            || (r.status.WaitingInput? && r.interrupt.Some? && r'.resumes[k].interruptId == r.interrupt.value.id))
    && (r'.status.WaitingInput? ==> r.status.WaitingInput? && r'.interrupt == r.interrupt)
  }

  lemma RowStaysHanded(s: System, s': System, id: Id)
    requires RowHanded(s, id) && PendsGrow(s, s') && id in s.rows && id in s'.rows
    requires Evolves(s.rows[id], s'.rows[id]) && KeepsRequests(s.rows[id], s'.rows[id])
    ensures RowHanded(s', id)
  {
    hide Settled, Shown, AttemptKept;
    var r, r' := s.rows[id], s'.rows[id];
    forall k | 0 <= k < |r.resumes| ensures r'.resumes[k].interruptId == r.resumes[k].interruptId {
      assert RequestKept(r.resumes[k], r'.resumes[k]);
    }
    hide RequestKept;
  }

  lemma RunStaysHanded(s: System, s': System, w: Id)
    requires RunHanded(s, w) && PendsGrow(s, s')
    requires w in s'.runs ==> w in s.runs && s'.runs[w].exec == s.runs[w].exec && s.runs[w].exec in s.rows
    requires w in s'.runs && s'.runs[w].phase.Active() ==>
               && s.runs[w].phase.Active() && s'.runs[w].resume == s.runs[w].resume
               && s'.runs[w].answer == s.runs[w].answer && s'.runs[w].suspended == s.runs[w].suspended
    requires Known(s', w) ==> Evolves(s.rows[s.runs[w].exec], s'.rows[s.runs[w].exec])
    requires Known(s', w) && s'.rows[s.runs[w].exec].worker == Some(w) ==> s.rows[s.runs[w].exec].worker == Some(w)
    ensures RunHanded(s', w)
  {
    hide Settled, Shown, AttemptKept;
    if Known(s', w) {
      var r, r' := s.rows[s.runs[w].exec], s'.rows[s.runs[w].exec];
      forall k | 0 <= k < |r.resumes| ensures r'.resumes[k].interruptId == r.resumes[k].interruptId {
        assert RequestKept(r.resumes[k], r'.resumes[k]);
      }
      hide RequestKept;
    }
  }

  /** A worker's local state that the handover does not concern is the same, or it stopped. */
  ghost predicate SameRun(s: System, s': System, w: Id) {
    w in s'.runs ==>
      && w in s.runs && s'.runs[w].exec == s.runs[w].exec
      && (s'.runs[w].phase.Active() ==>
            && s.runs[w].phase.Active() && s'.runs[w].resume == s.runs[w].resume
            && s'.runs[w].answer == s.runs[w].answer && s'.runs[w].suspended == s.runs[w].suspended)
  }

  ghost predicate RowKeeps(r: Row, r': Row) {
    && Evolves(r, r') && KeepsRequests(r, r')
    && (r'.worker.Some? ==> r'.worker == r.worker)
  }

  /** Steps that hand over, raise and consume nothing. */
  lemma QuietHanded(cfg: Settings, s: System, s': System)
    requires Inv(cfg, s) && Handed(s) && PendsGrow(s, s')
    requires forall id | id in s'.rows ::
               if id in s.rows then RowKeeps(s.rows[id], s'.rows[id])
               else s'.rows[id].resumes == [] && s'.rows[id].status.Pending?
    requires forall id | id in s.rows :: id in s'.rows
    requires forall w: Id :: SameRun(s, s', w)
    ensures Handed(s')
  {
    forall id: Id ensures RowHanded(s', id) {
      hide PendsGrow, KeepsRequests, Evolves, Settled, Shown, Inv;
      assert RowHanded(s, id);
      if id in s.rows {
        RowStaysHanded(s, s', id);
      }
    }
    forall w: Id ensures RunHanded(s', w) {
      hide PendsGrow, KeepsRequests, Evolves, Settled, Shown, RowHanded;
      assert RunHanded(s, w) && SameRun(s, s', w);
      if Known(s', w) {
        KnownRuns(cfg, s, w);
        RunStaysHanded(s, s', w);
      }
    }
  }

  lemma KnownRuns(cfg: Settings, s: System, w: Id)
    requires Inv(cfg, s) && w in s.runs
    ensures Known(s, w)
  {
    assert RunOk(s, w);
  }

  /** Nothing is shown that was not, and no record is lost. */
  lemma SameThreads(s: System, s': System)
    requires s'.threads == s.threads && s.answers <= s'.answers && s.cleared <= s'.cleared
    requires forall id | id in s.rows :: id in s'.rows && s'.rows[id].session == s.rows[id].session
    ensures PendsGrow(s, s')
  {
    forall id: Id, i: Id | Settled(s, id, i) ensures Settled(s', id, i) {
      RecordsStay(s, s', id, i);
    }
  }

  lemma RecordsStay(s: System, s': System, id: Id, interrupt: Id)
    requires s.answers <= s'.answers && s.cleared <= s'.cleared && Settled(s, id, interrupt)
    ensures Settled(s', id, interrupt)
  {
    if (id, interrupt) !in s.cleared {
      var n :| 0 <= n < |s.answers| && s.answers[n].exec == id && s.answers[n].interrupt == interrupt;
      assert s'.answers[n] == s.answers[n];
    }
  }

  // ---------------------------------------------------------------- row transactions

  lemma SameRowKeeps(r: Row)
    ensures RowKeeps(r, r)
  {
  }

  lemma ServiceKeepsRequests(cfg: Settings, r: Row, value: Option<Token>, d: Id, now: Time)
    ensures KeepsRequests(r, CancelRow(r, now)) && KeepsRequests(r, DisableRow(r, now))
    ensures KeepsRequests(r, ResumeRow(r, value, now))
    ensures KeepsRequests(r, ExpireUnclaimed(cfg, r, now)) && KeepsRequests(r, RecoverLease(cfg, r, now))
    ensures KeepsRequests(r, LockRow(r, d, now))
    ensures KeepsRequests(r, MarkPublishedRow(r, d, now)) && KeepsRequests(r, MarkRetryRow(r, d, now))
  {
    hide CloseAttempt;
  }

  lemma RunnerKeepsRequests(cfg: Settings, r: Row, w: Id, now: Time)
    ensures KeepsRequests(r, StartGate(cfg, r, now).0) && KeepsRequests(r, HeartbeatRow(cfg, r, w, now))
    ensures KeepsRequests(r, FailedRow(r, now))
  {
    hide CloseAttempt;
  }

  lemma ServiceRowKeeps(cfg: Settings, r: Row, value: Option<Token>, now: Time)
    requires RowOk(cfg, r)
    ensures RowKeeps(r, CancelRow(r, now)) && RowKeeps(r, DisableRow(r, now)) && RowKeeps(r, ResumeRow(r, value, now))
    ensures RowKeeps(r, ExpireUnclaimed(cfg, r, now)) && RowKeeps(r, RecoverLease(cfg, r, now)) && RowKeeps(r, r)
  {
    SameRowKeeps(r);
    hide RowOk, Evolves, KeepsRequests, CancelRow, DisableRow, ResumeRow, ExpireUnclaimed, RecoverLease, Quiet;
    ServiceKeepsRequests(cfg, r, value, NO_ID, now);
    CancelKeepsRow(cfg, r, now);
    DisableKeepsRow(cfg, r, now);
    ResumeKeepsRow(cfg, r, value, now);
    ExpireKeepsRow(cfg, r, now);
    RecoverKeepsRow(cfg, r, now);
  }

  lemma DispatchRowKeeps(cfg: Settings, r: Row, d: Id, now: Time)
    requires RowOk(cfg, r)
    ensures RowKeeps(r, LockRow(r, d, now)) && RowKeeps(r, r)
    ensures RowKeeps(r, MarkPublishedRow(r, d, now)) && RowKeeps(r, MarkRetryRow(r, d, now))
  {
    SameRowKeeps(r);
    hide RowOk, Evolves, KeepsRequests, LockRow, MarkPublishedRow, MarkRetryRow, Quiet;
    ServiceKeepsRequests(cfg, r, None, d, now);
    LockKeepsRow(cfg, r, d, now);
    PublishKeepsRow(cfg, r, d, now);
    RetryKeepsRow(cfg, r, d, now);
  }

  // ---------------------------------------------------------------- actions that hand over nothing

  /** Sessions of rows never change. */
  lemma EvolvedThreads(s: System, s': System)
    requires s'.threads == s.threads && StoreEvolves(s, s')
    ensures PendsGrow(s, s')
  {
    hide PendsGrow, AttemptKept, RequestKept;
    SameThreads(s, s');
  }

  /** Only rows change, each in a way that keeps its requests. */
  lemma RowsHanded(cfg: Settings, s: System, s': System)
    requires Inv(cfg, s) && Handed(s) && StoreEvolves(s, s')
    requires s'.threads == s.threads && s'.runs == s.runs
    requires forall id | id in s'.rows ::
               if id in s.rows then RowKeeps(s.rows[id], s'.rows[id])
               else s'.rows[id].resumes == [] && s'.rows[id].status.Pending?
    ensures Handed(s')
  {
    EvolvedThreads(s, s');
    hide Inv, RowKeeps, Handed, PendsGrow, Evolves;
    QuietHanded(cfg, s, s');
  }

  lemma CreateHanded(cfg: Settings, s: System, id: Id, session: Id, user: Id, key: Option<Token>)
    requires Inv(cfg, s) && Handed(s)
    ensures Handed(CreateStep(s, id, session, user, key))
  {
    hide Inv, Handed, StoreEvolves, RowKeeps, Replays, SessionBusy;
    if CreateStep(s, id, session, user, key) != s {
      CreateKeeps(cfg, s, id, session, user, key);
      assert CreateStep(s, id, session, user, key) == SetRow(s, id, NewRow(session, user, key, s.now));
      hide CreateStep;
      NewRowHanded(cfg, s, id, NewRow(session, user, key, s.now));
    }
  }

  lemma NewRowHanded(cfg: Settings, s: System, id: Id, r: Row)
    requires Inv(cfg, s) && Handed(s) && id !in s.rows && r.resumes == [] && r.status.Pending?
    requires StoreEvolves(s, SetRow(s, id, r))
    ensures Handed(SetRow(s, id, r))
  {
    hide Inv, Handed, StoreEvolves, RowKeeps;
    forall i | i in s.rows ensures RowKeeps(s.rows[i], s.rows[i]) {
      SameRowKeeps(s.rows[i]);
    }
    RowsHanded(cfg, s, SetRow(s, id, r));
  }

  lemma InvRow(cfg: Settings, s: System, id: Id)
    requires Inv(cfg, s) && id in s.rows
    ensures RowOk(cfg, s.rows[id])
  {
  }

  /** A change of one row. */
  lemma RowHandedOn(cfg: Settings, s: System, s': System, id: Id)
    requires Inv(cfg, s) && Handed(s) && StoreEvolves(s, s') && id in s.rows && id in s'.rows
    requires s'.rows == s.rows[id := s'.rows[id]] && s'.threads == s.threads && s'.runs == s.runs
    requires RowKeeps(s.rows[id], s'.rows[id])
    ensures Handed(s')
  {
    hide Inv, Handed, StoreEvolves, RowKeeps;
    forall i | i in s'.rows ensures i in s.rows && RowKeeps(s.rows[i], s'.rows[i]) {
      SameRowKeeps(s.rows[i]);
    }
    RowsHanded(cfg, s, s');
  }

  lemma CancelHanded(cfg: Settings, s: System, id: Id)
    requires Inv(cfg, s) && Handed(s)
    ensures Handed(CancelStep(s, id))
  {
    CancelKeeps(cfg, s, id);
    hide Handed, StoreEvolves, RowKeeps, CancelRow;
    if id in s.rows {
      ServiceRowKeeps(cfg, s.rows[id], None, s.now) by { InvRow(cfg, s, id); }
      RowHandedOn(cfg, s, CancelStep(s, id), id);
    }
  }

  lemma ResumeHanded(cfg: Settings, s: System, id: Id, value: Option<Token>)
    requires Inv(cfg, s) && Handed(s)
    ensures Handed(ResumeStep(s, id, value))
  {
    ResumeKeeps(cfg, s, id, value);
    hide Handed, StoreEvolves, RowKeeps, ResumeRow;
    if id in s.rows {
      ServiceRowKeeps(cfg, s.rows[id], value, s.now) by { InvRow(cfg, s, id); }
      RowHandedOn(cfg, s, ResumeStep(s, id, value), id);
    }
  }

  lemma DisableHanded(cfg: Settings, s: System, user: Id)
    requires Inv(cfg, s) && Handed(s)
    ensures Handed(DisableStep(s, user))
  {
    var s' := DisableStep(s, user);
    DisableKeeps(cfg, s, user);
    hide Inv, Handed, StoreEvolves, RowKeeps, DisableRow;
    forall i | i in s'.rows ensures RowKeeps(s.rows[i], s'.rows[i]) {
      InvRow(cfg, s, i);
      ServiceRowKeeps(cfg, s.rows[i], None, s.now);
    }
    RowsHanded(cfg, s, s');
  }

  lemma ExpireHanded(cfg: Settings, s: System, unclaimed: set<Id>)
    requires Inv(cfg, s) && Handed(s)
    ensures Handed(ExpireAll(cfg, s, unclaimed))
  {
    var s' := ExpireAll(cfg, s, unclaimed);
    hide Inv, Handed, StoreEvolves, RowKeeps, ExpireUnclaimed;
    ExpireKeeps(cfg, s, unclaimed);
    forall i | i in s'.rows ensures RowKeeps(s.rows[i], s'.rows[i]) {
      InvRow(cfg, s, i);
      ServiceRowKeeps(cfg, s.rows[i], None, s.now);
    }
    RowsHanded(cfg, s, s');
  }

  lemma RecoverLeasesHanded(cfg: Settings, s: System, expired: set<Id>)
    requires Inv(cfg, s) && Handed(s)
    ensures Handed(RecoverAll(cfg, s, expired))
  {
    var s' := RecoverAll(cfg, s, expired);
    hide Inv, Handed, StoreEvolves, RowKeeps, RecoverLease;
    RecoverLeasesKeeps(cfg, s, expired);
    forall i | i in s'.rows ensures RowKeeps(s.rows[i], s'.rows[i]) {
      InvRow(cfg, s, i);
      ServiceRowKeeps(cfg, s.rows[i], None, s.now);
    }
    RowsHanded(cfg, s, s');
  }

  lemma RecoverHanded(cfg: Settings, s: System, unclaimed: set<Id>, expired: set<Id>)
    requires Inv(cfg, s) && Handed(s)
    ensures Handed(RecoverStep(cfg, s, unclaimed, expired))
  {
    hide Inv, Handed, StoreEvolves, ExpireAll, RecoverAll;
    ExpireKeeps(cfg, s, unclaimed);
    ExpireHanded(cfg, s, unclaimed);
    RecoverLeasesHanded(cfg, ExpireAll(cfg, s, unclaimed), expired);
  }

  lemma LockHanded(cfg: Settings, s: System, d: Id, batch: set<Id>)
    requires Inv(cfg, s) && Handed(s)
    ensures Handed(LockStep(s, d, batch))
  {
    hide Inv, Handed, StoreEvolves, RowKeeps, LockRow, Idle, Dispatchable;
    var s' := LockStep(s, d, batch);
    LockKeeps(cfg, s, d, batch);
    assert s'.rows.Keys == s.rows.Keys && s'.threads == s.threads && s'.runs == s.runs;
    forall i | i in s'.rows ensures RowKeeps(s.rows[i], s'.rows[i]) {
      InvRow(cfg, s, i);
      DispatchRowKeeps(cfg, s.rows[i], d, s.now);
      assert s'.rows[i] == s.rows[i] || s'.rows[i] == LockRow(s.rows[i], d, s.now);
    }
    hide LockStep;
    RowsHanded(cfg, s, s');
  }

  lemma SettleHanded(cfg: Settings, s: System, d: Id, id: Id)
    requires Inv(cfg, s) && Handed(s)
    ensures Handed(PublishStep(s, d, id)) && Handed(RetryStep(s, d, id))
  {
    PublishKeeps(cfg, s, d, id);
    RetryKeeps(cfg, s, d, id);
    hide Handed, StoreEvolves, RowKeeps, MarkPublishedRow, MarkRetryRow;
    if id in s.rows {
      DispatchRowKeeps(cfg, s.rows[id], d, s.now) by { InvRow(cfg, s, id); }
      if (d, id) in s.delivered {
        RowHandedOn(cfg, s, PublishStep(s, d, id), id);
      }
      if (d, id) in s.locked {
        RowHandedOn(cfg, s, RetryStep(s, d, id), id);
      }
    }
  }

  /** Time, account states, messages, locks and crashes. */
  lemma RestHanded(cfg: Settings, s: System, s': System)
    requires Inv(cfg, s) && Handed(s)
    requires s'.rows == s.rows && s'.threads == s.threads && s'.answers == s.answers && s'.cleared == s.cleared
    requires forall w | w in s'.runs :: w in s.runs && s'.runs[w] == s.runs[w]
    ensures Handed(s')
  {
    SameThreads(s, s');
    hide Inv, Handed, PendsGrow, RowKeeps;
    forall id | id in s'.rows ensures RowKeeps(s.rows[id], s'.rows[id]) {
      SameRowKeeps(s.rows[id]);
    }
    QuietHanded(cfg, s, s');
  }

  // ---------------------------------------------------------------- workers

  /** Worker `w` changes its row and its own state. */
  ghost predicate OwnMove(s: System, s': System, id: Id, w: Id) {
    && id in s.rows && id in s'.rows && s'.rows == s.rows[id := s'.rows[id]] && s'.threads == s.threads
    && (forall v | v in s'.runs && v != w :: v in s.runs && s'.runs[v] == s.runs[v])
    && (s'.rows[id].worker.Some? ==> s'.rows[id].worker == s.rows[id].worker || s'.rows[id].worker == Some(w))
  }

  lemma OwnMoveHanded(cfg: Settings, s: System, s': System, id: Id, w: Id)
    requires Inv(cfg, s) && Handed(s) && StoreEvolves(s, s') && OwnMove(s, s', id, w)
    requires RowHanded(s', id) && RunHanded(s', w)
    ensures Handed(s')
  {
    EvolvedThreads(s, s');
    hide Inv, PendsGrow, KeepsRequests, Evolves, Settled, Shown, RowKeeps;
    forall i: Id ensures RowHanded(s', i) {
      assert RowHanded(s, i);
      if i in s.rows && i != id {
        SameRowKeeps(s.rows[i]);
        assert RowKeeps(s.rows[i], s'.rows[i]);
        RowStaysHanded(s, s', i) by { SameRowKept(s.rows[i]); }
      }
    }
    hide RowHanded;
    forall v: Id ensures RunHanded(s', v) {
      assert RunHanded(s, v);
      if v != w && v in s'.runs {
        KnownRuns(cfg, s, v);
        RunStaysHanded(s, s', v);
      }
    }
  }

  lemma SameRowKept(r: Row)
    ensures Evolves(r, r) && KeepsRequests(r, r)
  {
  }

  lemma RunnerRowKeeps(cfg: Settings, s: System, w: Id)
    requires Inv(cfg, s) && Known(s, w)
    ensures var r := s.rows[s.runs[w].exec];
            && KeepsRequests(r, StartGate(cfg, r, s.now).0) && KeepsRequests(r, HeartbeatRow(cfg, r, w, s.now))
            && KeepsRequests(r, FailedRow(r, s.now)) && KeepsRequests(r, r)
  {
    RunnerKeepsRequests(cfg, s.rows[s.runs[w].exec], w, s.now);
    SameRowKept(s.rows[s.runs[w].exec]);
  }

  /** The store after worker `w` changed its row and its own state. */
  function Moved(s: System, w: Id, r': Row, run': WorkerRun): System
    requires Known(s, w)
  {
    SetRun(SetRow(s, s.runs[w].exec, r'), w, run')
  }

  lemma MovedIsOwn(s: System, w: Id, r': Row, run': WorkerRun)
    requires Known(s, w) && r'.worker == s.rows[s.runs[w].exec].worker
    ensures OwnMove(s, Moved(s, w, r', run'), s.runs[w].exec, w)
  {
  }

  /** A worker step that consumes and raises nothing. */
  lemma PlainMoveHanded(cfg: Settings, s: System, w: Id, r': Row, run': WorkerRun)
    requires Inv(cfg, s) && Handed(s) && Known(s, w) && StoreEvolves(s, Moved(s, w, r', run'))
    requires r'.worker == s.rows[s.runs[w].exec].worker && KeepsRequests(s.rows[s.runs[w].exec], r')
    requires run'.exec == s.runs[w].exec
    requires run'.phase.Active() ==> s.runs[w].phase.Active()
    requires run'.resume == s.runs[w].resume && run'.answer == s.runs[w].answer && run'.suspended == s.runs[w].suspended
    ensures Handed(Moved(s, w, r', run'))
  {
    var id, s' := s.runs[w].exec, Moved(s, w, r', run');
    EvolvedThreads(s, s');
    MovedIsOwn(s, w, r', run');
    assert RowHanded(s, id) && RunHanded(s, w);
    assert Evolves(s.rows[id], s'.rows[id]);
    hide Inv, PendsGrow, KeepsRequests, Evolves, Settled, Shown, RowHanded, RunHanded, Handed, OwnMove, StoreEvolves;
    RowStaysHanded(s, s', id);
    RunStaysHanded(s, s', w);
    OwnMoveHanded(cfg, s, s', id, w);
  }

  lemma StartHanded(cfg: Settings, s: System, w: Id)
    requires Inv(cfg, s) && Handed(s)
    ensures Handed(StartStep(cfg, s, w))
  {
    hide Inv, Handed, StoreEvolves, KeepsRequests, CloseAttempt;
    if HoldsLease(s, w) && s.runs[w].phase.Starting? {
      RunnerRowKeeps(cfg, s, w);
      StartKeeps(cfg, s, w);
      var s', id := StartStep(cfg, s, w), s.runs[w].exec;
      assert s' == Moved(s, w, StartGate(cfg, s.rows[id], s.now).0, s'.runs[w]);
      PlainMoveHanded(cfg, s, w, StartGate(cfg, s.rows[id], s.now).0, s'.runs[w]);
    }
  }

  lemma HeartbeatHanded(cfg: Settings, s: System, w: Id)
    requires Inv(cfg, s) && Handed(s)
    ensures Handed(HeartbeatStep(cfg, s, w))
  {
    hide Inv, Handed, StoreEvolves, KeepsRequests;
    if HeartbeatStep(cfg, s, w) != s {
      RunnerRowKeeps(cfg, s, w);
      HeartbeatKeeps(cfg, s, w);
      var s', id := HeartbeatStep(cfg, s, w), s.runs[w].exec;
      assert s' == Moved(s, w, HeartbeatRow(cfg, s.rows[id], w, s.now), s'.runs[w]);
      PlainMoveHanded(cfg, s, w, HeartbeatRow(cfg, s.rows[id], w, s.now), s'.runs[w]);
    }
  }

  lemma FailHanded(cfg: Settings, s: System, w: Id)
    requires Inv(cfg, s) && Handed(s)
    ensures Handed(FailStep(s, w))
  {
    hide Inv, Handed, StoreEvolves, KeepsRequests, CloseAttempt;
    if HoldsLease(s, w) && s.runs[w].phase.Active() {
      RunnerRowKeeps(cfg, s, w);
      FailKeeps(cfg, s, w);
      var s', id := FailStep(s, w), s.runs[w].exec;
      assert s' == Moved(s, w, s'.rows[id], s'.runs[w]);
      PlainMoveHanded(cfg, s, w, s'.rows[id], s'.runs[w]);
    }
  }

  /** What the fenced commits of a worker may do to its requests. */
  ghost predicate ConsumesOnly(r: Row, r': Row, request: Option<nat>, raised: Option<Interrupt>) {
    && |r'.resumes| == |r.resumes|
    && (forall k | 0 <= k < |r.resumes| ::
          r'.resumes[k].interruptId == r.resumes[k].interruptId
          && (r'.resumes[k] == r.resumes[k] || (request == Some(k) && r'.resumes[k].status.Consumed?)))
    && (r'.status.WaitingInput? ==>
          (r.status.WaitingInput? && r'.interrupt == r.interrupt) || (raised.Some? && r'.interrupt == raised))
    && (r.status.Terminal() ==> r'.status.Terminal())
  }

  lemma CommitConsumesOnly(r: Row, w: Id, request: Option<nat>, raised: Interrupt, now: Time)
    requires !r.status.Terminal()
    ensures ConsumesOnly(r, SuspendRow(r, w, request, raised, now), request, Some(raised))
    ensures ConsumesOnly(r, FinishRow(r, w, request, now), request, None)
  {
    hide CloseAttempt;
  }

  lemma ConsumedStaysHanded(s: System, w: Id, r': Row, run': WorkerRun)
    requires MayWork(s, w) && s.runs[w].answer.None? && RowHanded(s, s.runs[w].exec) && RunHanded(s, w)
    requires s.rows[s.runs[w].exec].worker == Some(w) && !s.rows[s.runs[w].exec].status.Terminal()
    requires r'.session == s.rows[s.runs[w].exec].session
    requires ConsumesOnly(s.rows[s.runs[w].exec], r', s.runs[w].resume, s.runs[w].suspended)
    ensures RowHanded(Moved(s, w, r', run'), s.runs[w].exec)
  {
    var id, s' := s.runs[w].exec, Moved(s, w, r', run');
    assert s'.rows[id] == r' && s'.threads == s.threads;
    SettledSame(s, s', id);
    hide Settled, Moved;
  }

  lemma CommitRowHanded(cfg: Settings, s: System, w: Id, r': Row, run': WorkerRun)
    requires Inv(cfg, s) && Handed(s) && MayWork(s, w) && s.runs[w].answer.None?
    requires r'.session == s.rows[s.runs[w].exec].session
    requires ConsumesOnly(s.rows[s.runs[w].exec], r', s.runs[w].resume, s.runs[w].suspended)
    ensures RowHanded(Moved(s, w, r', run'), s.runs[w].exec)
  {
    assert RowHanded(s, s.runs[w].exec) && RunHanded(s, w);
    hide Inv, Handed, RowHanded, RunHanded, ConsumesOnly, RowOk, RunAgrees, Leased, Moved;
    HolderIsNamed(cfg, s, w);
    ConsumedStaysHanded(s, w, r', run');
  }

  /** The worker commits: it consumes its own request, or starts to wait for the interrupt it raised. */
  lemma CommitHanded(cfg: Settings, s: System, w: Id, r': Row, run': WorkerRun)
    requires Inv(cfg, s) && Handed(s) && MayWork(s, w) && s.runs[w].answer.None?
    requires StoreEvolves(s, Moved(s, w, r', run')) && !run'.phase.Active()
    requires r'.worker == s.rows[s.runs[w].exec].worker && r'.session == s.rows[s.runs[w].exec].session
    requires ConsumesOnly(s.rows[s.runs[w].exec], r', s.runs[w].resume, s.runs[w].suspended)
    ensures Handed(Moved(s, w, r', run'))
  {
    MovedIsOwn(s, w, r', run');
    CommitRowHanded(cfg, s, w, r', run');
    hide Inv, Handed, RowHanded, StoreEvolves, OwnMove, ConsumesOnly;
    OwnMoveHanded(cfg, s, Moved(s, w, r', run'), s.runs[w].exec, w);
  }

  lemma SuspendHanded(cfg: Settings, s: System, w: Id)
    requires Inv(cfg, s) && Handed(s)
    ensures Handed(SuspendStep(s, w))
  {
    hide Inv, Handed, StoreEvolves, ConsumesOnly, CloseAttempt, ConsumeResume, RowOk, RunAgrees;
    if MayWork(s, w) && s.runs[w].suspended.Some? && s.runs[w].answer.None? {
      var run, r := s.runs[w], s.rows[s.runs[w].exec];
      HolderIsNamed(cfg, s, w);
      SuspendKeeps(cfg, s, w);
      CommitConsumesOnly(r, w, run.resume, run.suspended.value, s.now);
      var r' := SuspendRow(r, w, run.resume, run.suspended.value, s.now);
      assert r'.worker == r.worker && r'.session == r.session;
      hide SuspendRow;
      CommitHanded(cfg, s, w, r', run.(phase := Ended));
    }
  }

  lemma FinishHanded(cfg: Settings, s: System, w: Id)
    requires Inv(cfg, s) && Handed(s)
    ensures Handed(FinishStep(s, w))
  {
    hide Inv, Handed, StoreEvolves, ConsumesOnly, CloseAttempt, ConsumeResume, RowOk, RunAgrees;
    if MayWork(s, w) && s.runs[w].suspended.None? && s.runs[w].answer.None? {
      var run, r := s.runs[w], s.rows[s.runs[w].exec];
      HolderIsNamed(cfg, s, w);
      FinishKeeps(cfg, s, w);
      CommitConsumesOnly(r, w, run.resume, Interrupt(NO_ID, Digest(0, 0)), s.now);
      var r' := FinishRow(r, w, run.resume, s.now);
      assert r'.worker == r.worker && r'.session == r.session;
      hide FinishRow;
      CommitHanded(cfg, s, w, r', run.(phase := if FenceOf(r, w).Pass? then Finished else Ended));
    }
  }

  // ---------------------------------------------------------------- claims

  /** A granted claim that continues from the checkpoint finds the open request already settled. */
  lemma GrantIsHanded(cfg: Settings, s: System, id: Id, w: Id, context: ClaimContext, readable: bool)
    requires Inv(cfg, s) && Handed(s) && id in s.rows
    requires ClaimRow(cfg, s.rows[id], w, s.now, context, s.rows[id].user in s.active,
                      Checkpoint(s, s.rows[id].session, readable)).1.Granted?
    ensures var r := s.rows[id];
            var checkpoint := Checkpoint(s, r.session, readable);
            var outcome := ClaimRow(cfg, r, w, s.now, context, r.user in s.active, checkpoint).1;
            outcome.resume.Some? ==>
              && outcome.resume.value < |r.resumes|
              && (outcome.answer.None? ==> Settled(s, id, r.resumes[outcome.resume.value].interruptId))
  {
    assert RowHanded(s, id);
    hide Inv, Handed, Settled;
  }

  lemma ClaimKeepsRequests(cfg: Settings, r: Row, w: Id, now: Time, context: ClaimContext, active: bool,
                           view: CheckpointView)
    ensures KeepsRequests(r, ClaimRow(cfg, r, w, now, context, active, view).0)
  {
    hide CheckpointObjection, Grant;
  }

  lemma ClaimIsOwn(cfg: Settings, s: System, id: Id, w: Id, context: ClaimContext, readable: bool)
    requires Inv(cfg, s) && id in s.rows && id in s.queue && w !in s.used
    ensures OwnMove(s, ClaimStep(cfg, s, id, w, context, readable), id, w)
  {
    InvRow(cfg, s, id);
    hide Inv, RowOk, Evolves, CheckpointObjection, Grant, GrantedRow;
    ClaimKeepsRow(cfg, s.rows[id], w, s.now, context, s.rows[id].user in s.active,
                  Checkpoint(s, s.rows[id].session, readable));
    hide ClaimRow;
  }

  lemma ClaimHanded(cfg: Settings, s: System, id: Id, w: Id, context: ClaimContext, readable: bool)
    requires Inv(cfg, s) && Handed(s)
    ensures Handed(ClaimStep(cfg, s, id, w, context, readable))
  {
    hide Inv, Handed, StoreEvolves, OwnMove, ClaimRow, KeepsRequests, RowHanded, RunHanded;
    if id in s.rows && id in s.queue && w !in s.used {
      var s' := ClaimStep(cfg, s, id, w, context, readable);
      ClaimKeeps(cfg, s, id, w, context, readable);
      ClaimKeepsRequests(cfg, s.rows[id], w, s.now, context, s.rows[id].user in s.active,
                         Checkpoint(s, s.rows[id].session, readable));
      ClaimIsOwn(cfg, s, id, w, context, readable);
      ClaimRowHanded(cfg, s, s', id, w);
      ClaimRunHanded(cfg, s, id, w, context, readable);
      OwnMoveHanded(cfg, s, s', id, w);
    }
  }

  lemma ClaimRowHanded(cfg: Settings, s: System, s': System, id: Id, w: Id)
    requires Inv(cfg, s) && Handed(s) && StoreEvolves(s, s') && s'.threads == s.threads
    requires id in s.rows && id in s'.rows && KeepsRequests(s.rows[id], s'.rows[id])
    ensures RowHanded(s', id)
  {
    EvolvedThreads(s, s');
    assert RowHanded(s, id) && Evolves(s.rows[id], s'.rows[id]);
    hide Inv, Handed, StoreEvolves, RowHanded, Evolves, KeepsRequests, PendsGrow;
    RowStaysHanded(s, s', id);
  }

  lemma ClaimRunHanded(cfg: Settings, s: System, id: Id, w: Id, context: ClaimContext, readable: bool)
    requires Inv(cfg, s) && Handed(s) && id in s.rows && id in s.queue && w !in s.used
    ensures RunHanded(ClaimStep(cfg, s, id, w, context, readable), w)
  {
    var s' := ClaimStep(cfg, s, id, w, context, readable);
    var r, view := s.rows[id], Checkpoint(s, s.rows[id].session, readable);
    var result := ClaimRow(cfg, r, w, s.now, context, r.user in s.active, view);
    assert RunOk(s, w);
    if result.1.Granted? {
      GrantIsHanded(cfg, s, id, w, context, readable);
      ClaimedInterrupts(r, w, s.now);
      SameThreads(s, s');
      hide Inv, Handed, Settled, Shown, CheckpointObjection, Grant, ClaimedResumes;
      assert s'.rows[id] == GrantedRow(cfg, r, w, s.now);
    }
  }

  lemma ClaimedInterrupts(r: Row, w: Id, now: Time)
    ensures |ClaimedResumes(r.resumes, w, now)| == |r.resumes|
    ensures forall k | 0 <= k < |r.resumes| ::
              ClaimedResumes(r.resumes, w, now)[k].interruptId == r.resumes[k].interruptId
  {
  }

  // ---------------------------------------------------------------- the graph

  /** The graph of `w` lets go of its resume value, which is settled. */
  lemma ReleaseHanded(cfg: Settings, s: System, s': System, w: Id)
    requires Inv(cfg, s) && Handed(s) && MayWork(s, w) && s.runs[w].answer.Some?
    requires s'.rows == s.rows && s'.threads == s.threads && s'.runs == s.runs[w := s.runs[w].(answer := None)]
    requires s.answers <= s'.answers && s.cleared <= s'.cleared
    requires var r := s.rows[s.runs[w].exec];
             s.runs[w].resume.Some? && s.runs[w].resume.value < |r.resumes|
             ==> Settled(s', s.runs[w].exec, r.resumes[s.runs[w].resume.value].interruptId)
    ensures Handed(s')
  {
    var id := s.runs[w].exec;
    SameThreads(s, s');
    assert StoreEvolves(s, s') by { SameStore(s); }
    assert RowHanded(s, id) && RunHanded(s, w);
    SameRowKept(s.rows[id]);
    hide Inv, Handed, Evolves, KeepsRequests, Settled, Shown, StoreEvolves;
    assert RunHanded(s', w);
    hide RunHanded;
    assert RowHanded(s', id) by { hide RowHanded, PendsGrow; RowStaysHanded(s, s', id); }
    assert OwnMove(s, s', id, w);
    OwnMoveHanded(cfg, s, s', id, w);
  }

  lemma AnswerHanded(cfg: Settings, s: System, w: Id, interrupt: Id)
    requires Inv(cfg, s) && Handed(s)
    ensures Handed(AnswerStep(s, w, interrupt))
  {
    if MayWork(s, w) && s.runs[w].answer.Some? && Shown(s, s.runs[w].exec, interrupt) {
      var s' := AnswerStep(s, w, interrupt);
      HolderIsNamed(cfg, s, w);
      assert s'.answers[|s.answers|] == Answer(s.runs[w].exec, interrupt, s.runs[w].answer.value);
      assert Settled(s', s.runs[w].exec, interrupt);
      assert s.rows[s.runs[w].exec].resumes[s.runs[w].resume.value].interruptId == interrupt;
      hide Inv, Handed, RowOk, RunAgrees, Settled;
      ReleaseHanded(cfg, s, s', w);
    }
  }

  lemma DropHanded(cfg: Settings, s: System, w: Id)
    requires Inv(cfg, s) && Handed(s)
    ensures Handed(DropStep(s, w))
  {
    if MayWork(s, w) && s.runs[w].answer.Some? && Session(s, w) !in s.threads {
      HolderIsNamed(cfg, s, w);
      LostIsSettled(cfg, s, w);
      SameThreads(s, DropStep(s, w));
      hide Inv, Handed, RowOk, RunAgrees, Settled, Shown;
      ReleaseHanded(cfg, s, DropStep(s, w), w);
    }
  }

  /** A value that no checkpoint can receive any more belongs to a deleted checkpoint, or was handed before. */
  lemma LostIsSettled(cfg: Settings, s: System, w: Id)
    requires Inv(cfg, s) && Handed(s) && MayWork(s, w) && s.runs[w].answer.Some? && Session(s, w) !in s.threads
    ensures var run := s.runs[w]; var r := s.rows[run.exec];
            && run.resume.Some? && run.resume.value < |r.resumes|
            && Settled(s, run.exec, r.resumes[run.resume.value].interruptId)
  {
    HolderIsNamed(cfg, s, w);
    assert RowHanded(s, s.runs[w].exec);
  }

  /** When the graph of `w` saves its checkpoint, nothing still pends on the old one. */
  lemma SavedRowHanded(cfg: Settings, s: System, w: Id, pending: map<Id, Digest>, suspended: Option<Interrupt>, id: Id)
    requires Inv(cfg, s) && Handed(s) && MaySave(s, w)
    ensures RowHanded(SavedBy(s, w, pending, suspended), id)
  {
    var s', exec := SavedBy(s, w, pending, suspended), s.runs[w].exec;
    HolderIsNamed(cfg, s, w);
    assert RowHanded(s, id) && RunHanded(s, w);
    if id in s.rows {
      assert s.rows[id].session == s.rows[exec].session && s.rows[id].status.Busy() ==> id == exec;
      SettledSame(s, s', id);
      hide Inv, Handed, Settled;
    }
  }

  lemma SettledSame(s: System, s': System, id: Id)
    requires s'.answers == s.answers && s'.cleared == s.cleared
    ensures forall i: Id :: Settled(s, id, i) <==> Settled(s', id, i)
  {
  }

  lemma SavedRunHanded(cfg: Settings, s: System, w: Id, pending: map<Id, Digest>, suspended: Option<Interrupt>, v: Id)
    requires Inv(cfg, s) && Handed(s) && MaySave(s, w)
    requires suspended.Some? ==> suspended.value.id in pending
    ensures RunHanded(SavedBy(s, w, pending, suspended), v)
  {
    var s', exec := SavedBy(s, w, pending, suspended), s.runs[w].exec;
    HolderIsNamed(cfg, s, w);
    assert RunHanded(s, v) && RunHanded(s, w);
    if Known(s, v) {
      var id := s.runs[v].exec;
      assert s.rows[id].session == s.rows[exec].session && s.rows[id].status.Busy() ==> id == exec;
      SettledSame(s, s', id);
      hide Inv, Handed, Settled, RowOk, RunAgrees;
    }
  }

  lemma SavedHanded(cfg: Settings, s: System, w: Id, pending: map<Id, Digest>, suspended: Option<Interrupt>)
    requires Inv(cfg, s) && Handed(s) && MaySave(s, w)
    requires suspended.Some? ==> suspended.value.id in pending
    ensures Handed(SavedBy(s, w, pending, suspended))
  {
    hide Inv, RowHanded, RunHanded, SavedBy;
    forall id: Id ensures RowHanded(SavedBy(s, w, pending, suspended), id) {
      SavedRowHanded(cfg, s, w, pending, suspended, id);
    }
    forall v: Id ensures RunHanded(SavedBy(s, w, pending, suspended), v) {
      SavedRunHanded(cfg, s, w, pending, suspended, v);
    }
  }

  /** Deleting a checkpoint records what it showed. */
  lemma CleanupHanded(cfg: Settings, s: System, w: Id)
    requires Inv(cfg, s) && Handed(s)
    ensures Handed(CleanupStep(s, w))
  {
    if Known(s, w) && s.runs[w].phase.Finished? {
      var s' := CleanupStep(s, w);
      CleanupRecords(s, w);
      hide Inv, Handed, PendsGrow, RowKeeps, Settled, Shown;
      forall id | id in s'.rows ensures RowKeeps(s.rows[id], s'.rows[id]) {
        SameRowKeeps(s.rows[id]);
      }
      QuietHanded(cfg, s, s');
    }
  }

  lemma CleanupRecords(s: System, w: Id)
    requires Known(s, w) && s.runs[w].phase.Finished?
    ensures PendsGrow(s, CleanupStep(s, w))
  {
    var s' := CleanupStep(s, w);
    forall id: Id, i: Id | Settled(s, id, i) ensures Settled(s', id, i) {
      RecordsStay(s, s', id, i);
    }
    forall id: Id, i: Id | Shown(s, id, i) ensures Pends(s', id, i) {
      if s.rows[id].session == Session(s, w) {
        assert (id, i) in ShownBy(s, Session(s, w));
      }
    }
  }

  // ---------------------------------------------------------------- all actions

  lemma WorkerHanded(cfg: Settings, s: System, a: Action)
    requires Inv(cfg, s) && Handed(s) && ByWorker(a)
    ensures Handed(Apply(cfg, s, a))
  {
    hide Inv, Handed, ClaimStep, StartStep, HeartbeatStep, SuspendStep, FinishStep, CleanupStep, FailStep;
    match a {
      case Claim(id, w, context, readable) => ClaimHanded(cfg, s, id, w, context, readable);
      case Start(w) => StartHanded(cfg, s, w);
      case Heartbeat(w) => HeartbeatHanded(cfg, s, w);
      case Suspend(w) => SuspendHanded(cfg, s, w);
      case Finish(w) => FinishHanded(cfg, s, w);
      case Cleanup(w) => CleanupHanded(cfg, s, w);
      case Fail(w) => FailHanded(cfg, s, w);
      case Crash(_) => RestHanded(cfg, s, Apply(cfg, s, a));
    }
  }

  lemma GraphHanded(cfg: Settings, s: System, a: Action)
    requires Inv(cfg, s) && Handed(s) && ByGraph(a)
    ensures Handed(Apply(cfg, s, a))
  {
    hide Inv, Handed, AnswerStep, DropStep, SavedBy;
    match a {
      case GraphAnswer(w, i) => AnswerHanded(cfg, s, w, i);
      case GraphDrop(w) => DropHanded(cfg, s, w);
      case GraphSave(w) => if MaySave(s, w) { SavedHanded(cfg, s, w, map[], None); }
      case GraphSuspend(w, raised) =>
        if MaySave(s, w) { SavedHanded(cfg, s, w, map[raised.id := raised.callsHash], Some(raised)); }
    }
  }

  lemma MessagesHanded(cfg: Settings, s: System, d: Id, id: Id)
    requires Inv(cfg, s) && Handed(s)
    ensures Handed(SendStep(s, d, id)) && Handed(DispatcherDiesStep(s, d))
    ensures Handed(AcknowledgeStep(s, id)) && Handed(RedeliverStep(s, id))
  {
    hide Inv, Handed;
    RestHanded(cfg, s, SendStep(s, d, id));
    RestHanded(cfg, s, DispatcherDiesStep(s, d));
    RestHanded(cfg, s, AcknowledgeStep(s, id));
    RestHanded(cfg, s, RedeliverStep(s, id));
  }

  lemma BrokerHanded(cfg: Settings, s: System, a: Action)
    requires Inv(cfg, s) && Handed(s) && ByBroker(a)
    ensures Handed(Apply(cfg, s, a))
  {
    hide Inv, Handed, LockStep, PublishStep, RetryStep, SendStep, DispatcherDiesStep, AcknowledgeStep, RedeliverStep;
    match a {
      case LockOutbox(d, batch) => LockHanded(cfg, s, d, batch);
      case MarkPublished(d, id) => SettleHanded(cfg, s, d, id);
      case MarkRetry(d, id) => SettleHanded(cfg, s, d, id);
      case Send(d, id) => MessagesHanded(cfg, s, d, id);
      case DispatcherDies(d) => MessagesHanded(cfg, s, d, NO_ID);
      case Acknowledge(id) => MessagesHanded(cfg, s, NO_ID, id);
      case Redeliver(id) => MessagesHanded(cfg, s, NO_ID, id);
    }
  }

  lemma ServiceHanded(cfg: Settings, s: System, a: Action)
    requires Inv(cfg, s) && Handed(s) && !ByWorker(a) && !ByGraph(a) && !ByBroker(a)
    ensures Handed(Apply(cfg, s, a))
  {
    hide Inv, Handed, CreateStep, CancelStep, ResumeStep, DisableStep, RecoverStep;
    match a {
      case Tick(_) => RestHanded(cfg, s, Apply(cfg, s, a));
      case CreateTurn(id, session, user, key) => CreateHanded(cfg, s, id, session, user, key);
      case CancelTurn(id) => CancelHanded(cfg, s, id);
      case ResumeTurn(id, value) => ResumeHanded(cfg, s, id, value);
      case EnableUser(_) => RestHanded(cfg, s, Apply(cfg, s, a));
      case DisableUser(user) => DisableHanded(cfg, s, user);
      case Recover(unclaimed, expired) => RecoverHanded(cfg, s, unclaimed, expired);
    }
  }

  lemma ApplyHanded(cfg: Settings, s: System, a: Action)
    requires Inv(cfg, s) && Handed(s)
    ensures Handed(Apply(cfg, s, a))
  {
    hide Inv, Handed, Apply;
    if ByWorker(a) {
      WorkerHanded(cfg, s, a);
    } else if ByGraph(a) {
      GraphHanded(cfg, s, a);
    } else if ByBroker(a) {
      BrokerHanded(cfg, s, a);
    } else {
      ServiceHanded(cfg, s, a);
    }
  }
}
