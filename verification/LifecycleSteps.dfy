/** Every action keeps the lifecycle invariant and only evolves rows. */
module LifecycleSteps {
  import opened Wrappers
  import opened Lifecycle
  import opened LifecycleSystem
  import opened LifecycleInvariant

  lemma AnswerSurvives(r: Row, r': Row, interrupt: Id, value: Token)
    requires Answered(r, interrupt, value) && Evolves(r, r')
    ensures Answered(r', interrupt, value)
  {
    var k :| 0 <= k < |r.resumes| && r.resumes[k].interruptId == interrupt && r.resumes[k].value == value;
    assert RequestKept(r.resumes[k], r'.resumes[k]);
  }

  lemma BusyOnlyIfBusy(r: Row, r': Row)
    requires Evolves(r, r')
    ensures SameTurn(r, r') && (r'.status.Busy() ==> r.status.Busy())
  {
  }

  lemma SameStore(s: System)
    ensures StoreEvolves(s, s)
  {
  }

  lemma StoreEvolvesTransitive(a: System, b: System, c: System)
    requires StoreEvolves(a, b) && StoreEvolves(b, c)
    ensures StoreEvolves(a, c)
  {
    hide Evolves;
    forall id | id in a.rows ensures Evolves(a.rows[id], c.rows[id]) {
      EvolvesTransitive(a.rows[id], b.rows[id], c.rows[id]);
    }
  }

  // ---------------------------------------------------------------- changes of rows

  ghost predicate RowsStep(cfg: Settings, s: System, s': System, who: Option<Id> := None) {
    && s'.rows.Keys == s.rows.Keys && s.used <= s'.used && s'.answers == s.answers && s'.cleared == s.cleared
    && (who.Some? ==> who.value in s'.used)
    && forall id | id in s.rows :: RowStep(cfg, s.rows[id], s'.rows[id], who)
  }

  /** Row changes that start no execution keep everything that is not about workers. */
  lemma RowsStepKeeps(cfg: Settings, s: System, s': System, who: Option<Id> := None)
    requires Inv(cfg, s) && RowsStep(cfg, s, s', who)
    ensures RowsOk(cfg, s') && OneBusyPerSession(s') && OneTurnPerKey(s') && AnswersOk(s')
    ensures StoreEvolves(s, s')
  {
    hide RowOk, Evolves, Answered, RunOk, AtMostOnePending;
    forall id | id in s.rows
      ensures SameTurn(s.rows[id], s'.rows[id]) && (s'.rows[id].status.Busy() ==> s.rows[id].status.Busy())
    {
      assert RowStep(cfg, s.rows[id], s'.rows[id], who);
      BusyOnlyIfBusy(s.rows[id], s'.rows[id]);
    }
    forall n | 0 <= n < |s.answers|
      ensures Answered(s'.rows[s.answers[n].exec], s.answers[n].interrupt, s.answers[n].value)
    {
      var id := s.answers[n].exec;
      assert RowStep(cfg, s.rows[id], s'.rows[id], who);
      AnswerSurvives(s.rows[id], s'.rows[id], s.answers[n].interrupt, s.answers[n].value);
    }
    forall id | id in s'.rows
      ensures RowOk(cfg, s'.rows[id])
      ensures s'.rows[id].worker.Some? ==> s'.rows[id].worker.value in s'.used
    {
      assert RowStep(cfg, s.rows[id], s'.rows[id], who);
    }
  }

  /** A change of the one row `id` that is a row step. */
  lemma SingleRowStep(cfg: Settings, s: System, s': System, id: Id, who: Option<Id> := None)
    requires Inv(cfg, s) && id in s.rows && id in s'.rows && s'.rows == s.rows[id := s'.rows[id]]
    requires s.used <= s'.used && s'.answers == s.answers && s'.cleared == s.cleared
    requires who.Some? ==> who.value in s'.used
    requires RowStep(cfg, s.rows[id], s'.rows[id], who)
    ensures RowsOk(cfg, s') && OneBusyPerSession(s') && OneTurnPerKey(s') && AnswersOk(s')
    ensures StoreEvolves(s, s')
  {
    hide RunOk, RowOk, Evolves, Quiet, Answered;
    forall i | i in s.rows ensures RowStep(cfg, s.rows[i], s'.rows[i], who) {
      SameRow(cfg, s.rows[i]);
    }
    RowsStepKeeps(cfg, s, s', who);
  }

  // ---------------------------------------------------------------- actions no worker takes

  ghost predicate QuietRows(s: System, s': System) {
    && s'.rows.Keys == s.rows.Keys && s'.runs == s.runs && s'.used == s.used
    && s'.threads == s.threads && s'.now == s.now
    && forall id | id in s.rows :: Quiet(s.rows[id], s'.rows[id])
  }

  lemma QuietKeepsRun(s: System, s': System, w: Id)
    requires RunOk(s, w) && QuietRows(s, s')
    ensures RunOk(s', w)
  {
    if w in s.runs {
      assert Quiet(s.rows[s.runs[w].exec], s'.rows[s.runs[w].exec]);
    }
  }

  lemma QuietStepKeeps(cfg: Settings, s: System, s': System)
    requires Inv(cfg, s) && RowsStep(cfg, s, s') && QuietRows(s, s')
    ensures Inv(cfg, s') && StoreEvolves(s, s')
  {
    RowsStepKeeps(cfg, s, s');
    hide RunOk, RowStep, RowOk, Evolves, Quiet, Answered;
    forall w ensures RunOk(s', w) {
      assert RunOk(s, w);
      QuietKeepsRun(s, s', w);
    }
  }

  /** A quiet change of one row. */
  lemma QuietRowKeeps(cfg: Settings, s: System, id: Id, r': Row)
    requires Inv(cfg, s) && id in s.rows && RowStep(cfg, s.rows[id], r') && Quiet(s.rows[id], r')
    ensures Inv(cfg, SetRow(s, id, r')) && StoreEvolves(s, SetRow(s, id, r'))
  {
    hide RunOk, RowOk, Evolves, Quiet, Answered;
    var s' := SetRow(s, id, r');
    forall i | i in s.rows ensures RowStep(cfg, s.rows[i], s'.rows[i]) && Quiet(s.rows[i], s'.rows[i]) {
      SameRow(cfg, s.rows[i]);
    }
    QuietStepKeeps(cfg, s, s');
  }

  lemma TickKeeps(cfg: Settings, s: System, n: nat)
    requires Inv(cfg, s)
    ensures Inv(cfg, s.(now := s.now + n)) && StoreEvolves(s, s.(now := s.now + n))
  {
    var s' := s.(now := s.now + n);
    forall w ensures RunOk(s', w) {
      assert RunOk(s, w);
    }
  }

  lemma CreateKeeps(cfg: Settings, s: System, id: Id, session: Id, user: Id, key: Option<Token>)
    requires Inv(cfg, s)
    ensures Inv(cfg, CreateStep(s, id, session, user, key))
    ensures StoreEvolves(s, CreateStep(s, id, session, user, key))
  {
    SameStore(s);
    if !(id in s.rows || Replays(s, session, key) || SessionBusy(s, session)) {
      var s' := SetRow(s, id, NewRow(session, user, key, s.now));
      assert RowOk(cfg, s'.rows[id]);
      hide RowOk, Evolves, Answered, RunOk;
      assert OneBusyPerSession(s') && OneTurnPerKey(s') by {
        hide Inv, RowsOk;
        CreateIsAlone(s, id, session, user, key);
      }
      forall w ensures RunOk(s', w) {
        CreateKeepsRun(s, id, session, user, key, w);
      }
      hide OneBusyPerSession, OneTurnPerKey, Replays, SessionBusy;
    }
  }

  lemma CreateIsAlone(s: System, id: Id, session: Id, user: Id, key: Option<Token>)
    requires OneBusyPerSession(s) && OneTurnPerKey(s)
    requires id !in s.rows && !Replays(s, session, key) && !SessionBusy(s, session)
    ensures OneBusyPerSession(SetRow(s, id, NewRow(session, user, key, s.now)))
    ensures OneTurnPerKey(SetRow(s, id, NewRow(session, user, key, s.now)))
  {
  }

  lemma CreateKeepsRun(s: System, id: Id, session: Id, user: Id, key: Option<Token>, w: Id)
    requires RunOk(s, w) && id !in s.rows
    ensures RunOk(SetRow(s, id, NewRow(session, user, key, s.now)), w)
  {
  }

  lemma CancelKeeps(cfg: Settings, s: System, id: Id)
    requires Inv(cfg, s)
    ensures Inv(cfg, CancelStep(s, id)) && StoreEvolves(s, CancelStep(s, id))
  {
    SameStore(s);
    hide RunOk, RowOk, Evolves, Quiet, Answered, CancelRow;
    if id in s.rows {
      CancelKeepsRow(cfg, s.rows[id], s.now);
      QuietRowKeeps(cfg, s, id, CancelRow(s.rows[id], s.now));
    }
  }

  lemma DisableKeeps(cfg: Settings, s: System, user: Id)
    requires Inv(cfg, s)
    ensures Inv(cfg, DisableStep(s, user)) && StoreEvolves(s, DisableStep(s, user))
  {
    hide RunOk, RowOk, Evolves, Quiet, Answered, DisableRow;
    var s' := DisableStep(s, user);
    forall i | i in s.rows ensures RowStep(cfg, s.rows[i], s'.rows[i]) && Quiet(s.rows[i], s'.rows[i]) {
      DisableKeepsRow(cfg, s.rows[i], s.now);
      SameRow(cfg, s.rows[i]);
    }
    QuietStepKeeps(cfg, s, s');
  }

  lemma ResumeKeeps(cfg: Settings, s: System, id: Id, value: Option<Token>)
    requires Inv(cfg, s)
    ensures Inv(cfg, ResumeStep(s, id, value)) && StoreEvolves(s, ResumeStep(s, id, value))
  {
    SameStore(s);
    if id in s.rows {
      var s' := ResumeStep(s, id, value);
      SingleRowStep(cfg, s, s', id) by {
        hide RunOk, Answered;
        ResumeKeepsRow(cfg, s.rows[id], value, s.now);
      }
      forall w ensures RunOk(s', w) {
        ResumeKeepsRun(cfg, s, id, value, w);
      }
      hide RunOk, RowOk, Evolves, Answered;
    }
  }

  lemma ResumeKeepsRun(cfg: Settings, s: System, id: Id, value: Option<Token>, w: Id)
    requires Inv(cfg, s) && id in s.rows
    ensures RunOk(SetRow(s, id, ResumeRow(s.rows[id], value, s.now)), w)
  {
    hide RowOk, Evolves, Answered;
    assert RunOk(s, w);
  }

  lemma ExpireKeeps(cfg: Settings, s: System, unclaimed: set<Id>)
    requires Inv(cfg, s)
    ensures Inv(cfg, ExpireAll(cfg, s, unclaimed)) && StoreEvolves(s, ExpireAll(cfg, s, unclaimed))
  {
    hide RunOk, RowOk, Evolves, Quiet, Answered, ExpireUnclaimed;
    var s' := ExpireAll(cfg, s, unclaimed);
    forall i | i in s.rows ensures RowStep(cfg, s.rows[i], s'.rows[i]) && Quiet(s.rows[i], s'.rows[i]) {
      ExpireKeepsRow(cfg, s.rows[i], s.now);
      SameRow(cfg, s.rows[i]);
    }
    QuietStepKeeps(cfg, s, s');
  }

  lemma RecoverLeasesKeeps(cfg: Settings, s: System, expired: set<Id>)
    requires Inv(cfg, s)
    ensures Inv(cfg, RecoverAll(cfg, s, expired)) && StoreEvolves(s, RecoverAll(cfg, s, expired))
  {
    hide RunOk, RowOk, Evolves, Quiet, Answered, RecoverLease;
    var s' := RecoverAll(cfg, s, expired);
    forall i | i in s.rows ensures RowStep(cfg, s.rows[i], s'.rows[i]) {
      RecoverKeepsRow(cfg, s.rows[i], s.now);
      SameRow(cfg, s.rows[i]);
    }
    RowsStepKeeps(cfg, s, s');
    forall w ensures RunOk(s', w) {
      RecoverKeepsRun(cfg, s, expired, w);
    }
  }

  lemma RecoverKeepsRun(cfg: Settings, s: System, expired: set<Id>, w: Id)
    requires RunOk(s, w)
    ensures RunOk(RecoverAll(cfg, s, expired), w)
  {
  }

  lemma RecoverKeeps(cfg: Settings, s: System, unclaimed: set<Id>, expired: set<Id>)
    requires Inv(cfg, s)
    ensures Inv(cfg, RecoverStep(cfg, s, unclaimed, expired))
    ensures StoreEvolves(s, RecoverStep(cfg, s, unclaimed, expired))
  {
    hide Inv, StoreEvolves, ExpireAll, RecoverAll;
    var mid := ExpireAll(cfg, s, unclaimed);
    ExpireKeeps(cfg, s, unclaimed);
    RecoverLeasesKeeps(cfg, mid, expired);
    StoreEvolvesTransitive(s, mid, RecoverAll(cfg, mid, expired));
  }

  // ---------------------------------------------------------------- dispatcher and broker

  /** Messages, locks and account states concern neither rows nor runs. */
  lemma OnlyDeliveries(cfg: Settings, s: System, s': System)
    requires Inv(cfg, s)
    requires s' == s.(queue := s'.queue, taken := s'.taken, delivered := s'.delivered, locked := s'.locked,
                      active := s'.active)
    ensures Inv(cfg, s') && StoreEvolves(s, s')
  {
    SameStore(s);
    hide RowOk, Evolves, Answered;
    forall v ensures RunOk(s', v) {
      assert RunOk(s, v);
    }
  }

  lemma LockKeeps(cfg: Settings, s: System, d: Id, batch: set<Id>)
    requires Inv(cfg, s)
    ensures Inv(cfg, LockStep(s, d, batch)) && StoreEvolves(s, LockStep(s, d, batch))
  {
    SameStore(s);
    hide RunOk, RowOk, Evolves, Quiet, Answered, LockRow, Idle;
    if Idle(s, d) {
      var s' := LockStep(s, d, batch);
      forall i | i in s.rows ensures RowStep(cfg, s.rows[i], s'.rows[i]) && Quiet(s.rows[i], s'.rows[i]) {
        LockKeepsRow(cfg, s.rows[i], d, s.now);
        SameRow(cfg, s.rows[i]);
      }
      QuietStepKeeps(cfg, s, s');
    }
  }

  lemma SettleKeeps(cfg: Settings, s: System, d: Id, id: Id, r': Row)
    requires Inv(cfg, s) && id in s.rows && RowStep(cfg, s.rows[id], r') && Quiet(s.rows[id], r')
    ensures Inv(cfg, Settle(s, d, id, r')) && StoreEvolves(s, Settle(s, d, id, r'))
  {
    hide Inv, StoreEvolves, RowStep, Quiet;
    var mid, s' := SetRow(s, id, r'), Settle(s, d, id, r');
    QuietRowKeeps(cfg, s, id, r');
    OnlyDeliveries(cfg, mid, s');
    StoreEvolvesTransitive(s, mid, s');
  }

  lemma PublishKeeps(cfg: Settings, s: System, d: Id, id: Id)
    requires Inv(cfg, s)
    ensures Inv(cfg, PublishStep(s, d, id)) && StoreEvolves(s, PublishStep(s, d, id))
  {
    SameStore(s);
    hide StoreEvolves, RowOk, Evolves, Answered, Quiet, MarkPublishedRow, RunOk, Settle;
    if (d, id) in s.delivered && id in s.rows {
      PublishKeepsRow(cfg, s.rows[id], d, s.now);
      SettleKeeps(cfg, s, d, id, MarkPublishedRow(s.rows[id], d, s.now));
    }
  }

  lemma RetryKeeps(cfg: Settings, s: System, d: Id, id: Id)
    requires Inv(cfg, s)
    ensures Inv(cfg, RetryStep(s, d, id)) && StoreEvolves(s, RetryStep(s, d, id))
  {
    SameStore(s);
    hide StoreEvolves, RowOk, Evolves, Answered, Quiet, MarkRetryRow, RunOk, Settle;
    if (d, id) in s.locked && id in s.rows {
      RetryKeepsRow(cfg, s.rows[id], d, s.now);
      SettleKeeps(cfg, s, d, id, MarkRetryRow(s.rows[id], d, s.now));
    }
  }

  // ---------------------------------------------------------------- claims

  lemma GrantAgrees(cfg: Settings, s: System, id: Id, w: Id, context: ClaimContext, readable: bool)
    requires Inv(cfg, s) && id in s.rows && id in s.queue && w !in s.used
    requires ClaimRow(cfg, s.rows[id], w, s.now, context, s.rows[id].user in s.active,
                      Checkpoint(s, s.rows[id].session, readable)).1.Granted?
    ensures var s' := ClaimStep(cfg, s, id, w, context, readable);
            w in s'.runs && RunAgrees(s', w, s'.runs[w], s'.rows[id])
  {
    hide Answered, Evolves, RunOk;
    OpenResumeIsLast(s.rows[id].resumes);
  }

  /** A claim cannot touch a row whose live worker still holds its lease. */
  lemma ClaimKeepsOthers(cfg: Settings, s: System, id: Id, w: Id, context: ClaimContext, readable: bool, v: Id)
    requires Inv(cfg, s) && id in s.rows && w !in s.used && v != w
    ensures RunOk(ClaimStep(cfg, s, id, w, context, readable), v)
  {
    hide RowOk, Evolves, Answered, CheckpointObjection, Grant;
    assert RunOk(s, v);
    var view := Checkpoint(s, s.rows[id].session, readable);
    ClaimKeepsRow(cfg, s.rows[id], w, s.now, context, s.rows[id].user in s.active, view);
  }

  lemma ClaimStartsRun(cfg: Settings, s: System, id: Id, w: Id, context: ClaimContext, readable: bool)
    requires Inv(cfg, s) && id in s.rows && id in s.queue && w !in s.used
    ensures RunOk(ClaimStep(cfg, s, id, w, context, readable), w)
  {
    assert RunOk(s, w);
    hide RowOk, Evolves, Answered, CheckpointObjection, RunAgrees;
    if ClaimRow(cfg, s.rows[id], w, s.now, context, s.rows[id].user in s.active,
                Checkpoint(s, s.rows[id].session, readable)).1.Granted? {
      GrantAgrees(cfg, s, id, w, context, readable);
    }
  }

  lemma ClaimKeeps(cfg: Settings, s: System, id: Id, w: Id, context: ClaimContext, readable: bool)
    requires Inv(cfg, s)
    ensures Inv(cfg, ClaimStep(cfg, s, id, w, context, readable))
    ensures StoreEvolves(s, ClaimStep(cfg, s, id, w, context, readable))
  {
    SameStore(s);
    if id in s.rows && id in s.queue && w !in s.used {
      var s' := ClaimStep(cfg, s, id, w, context, readable);
      SingleRowStep(cfg, s, s', id, Some(w)) by {
        hide Answered, RunOk, RowOk, Evolves;
        ClaimKeepsRow(cfg, s.rows[id], w, s.now, context, s.rows[id].user in s.active,
                      Checkpoint(s, s.rows[id].session, readable));
      }
      forall v ensures RunOk(s', v) {
        if v != w {
          ClaimKeepsOthers(cfg, s, id, w, context, readable, v);
        } else {
          ClaimStartsRun(cfg, s, id, w, context, readable);
        }
      }
      hide RowOk, Evolves, Answered, RunOk, StoreEvolves;
    }
  }

  // ---------------------------------------------------------------- workers

  /** The worker named in its row moves: its own row and run change, and its thread if it is busy. */
  ghost predicate WorkerMoves(s: System, s': System, w: Id) {
    && Known(s, w)
    && var id := s.runs[w].exec;
       && id in s'.rows && s'.rows == s.rows[id := s'.rows[id]]
       && s.rows[id].worker == s'.rows[id].worker == Some(w) && s'.rows[id].session == s.rows[id].session
       && w in s'.runs && s'.runs == s.runs[w := s'.runs[w]] && s'.runs[w].exec == id
       && s'.now == s.now && s'.used == s.used
       && (s'.threads != s.threads ==> s.rows[id].status.Busy())
       && forall t | t != s.rows[id].session ::
            (t in s'.threads <==> t in s.threads) && (t in s.threads ==> s'.threads[t] == s.threads[t])
  }

  lemma OthersKept(cfg: Settings, s: System, s': System, w: Id, v: Id)
    requires Inv(cfg, s) && WorkerMoves(s, s', w) && v != w
    ensures RunOk(s', v)
  {
    hide RowOk, Evolves, Answered;
    assert RunOk(s, v);
    if v in s.runs {
      var id, other := s.runs[w].exec, s.runs[v].exec;
      assert (s.rows[other].session == s.rows[id].session && s.rows[other].status.Busy()
              && s.rows[id].status.Busy()) ==> other == id;
    }
  }

  lemma WorkerStepKeeps(cfg: Settings, s: System, s': System, w: Id)
    requires Inv(cfg, s) && WorkerMoves(s, s', w) && s'.answers == s.answers && s'.cleared == s.cleared
    requires RowStep(cfg, s.rows[s.runs[w].exec], s'.rows[s.runs[w].exec])
    requires RunOk(s', w)
    requires forall t | t in s'.threads :: AtMostOnePending(s'.threads[t])
    ensures Inv(cfg, s') && StoreEvolves(s, s')
  {
    SingleRowStep(cfg, s, s', s.runs[w].exec);
    hide RowOk, Evolves, Answered, WorkerMoves, StoreEvolves;
    forall v ensures RunOk(s', v) {
      hide RunOk;
      if v != w {
        OthersKept(cfg, s, s', w, v);
      }
    }
    hide RunOk;
  }

  /** A worker past its claim that holds its lease is the one its row names. */
  lemma HolderIsNamed(cfg: Settings, s: System, w: Id)
    requires Inv(cfg, s) && HoldsLease(s, w) && s.runs[w].phase.Active()
    ensures var run := s.runs[w]; var r := s.rows[run.exec];
            && RowOk(cfg, r) && r.worker == Some(w)
            && (run.phase.Working? ==> !r.status.Terminal())
            && (!r.status.Terminal() ==> Leased(r) && RunAgrees(s, w, run, r))
  {
    assert RunOk(s, w);
  }

  lemma StartKeeps(cfg: Settings, s: System, w: Id)
    requires Inv(cfg, s)
    ensures Inv(cfg, StartStep(cfg, s, w)) && StoreEvolves(s, StartStep(cfg, s, w))
  {
    SameStore(s);
    if HoldsLease(s, w) && s.runs[w].phase.Starting? {
      var s' := StartStep(cfg, s, w);
      HolderIsNamed(cfg, s, w);
      StartKeepsRow(cfg, s.rows[s.runs[w].exec], s.now);
      assert RunOk(s, w);
      hide RowOk, Evolves, Answered, StoreEvolves;
      assert RunOk(s', w);
      WorkerStepKeeps(cfg, s, s', w);
    }
  }

  lemma HeartbeatKeeps(cfg: Settings, s: System, w: Id)
    requires Inv(cfg, s)
    ensures Inv(cfg, HeartbeatStep(cfg, s, w)) && StoreEvolves(s, HeartbeatStep(cfg, s, w))
  {
    SameStore(s);
    if Known(s, w) && !s.rows[s.runs[w].exec].status.Terminal() && s.rows[s.runs[w].exec].worker == Some(w) {
      var s' := HeartbeatStep(cfg, s, w);
      HeartbeatKeepsRow(cfg, s.rows[s.runs[w].exec], w, s.now);
      assert RunOk(s, w);
      hide Inv, RowOk, Evolves, Answered, StoreEvolves;
      assert RunOk(s', w);
      hide RunOk;
      WorkerStepKeeps(cfg, s, s', w);
    }
  }

  /** The worker of a busy row ends its run. */
  lemma EndingKeeps(cfg: Settings, s: System, s': System, w: Id, r': Row, phase: Phase)
    requires Inv(cfg, s) && HoldsLease(s, w) && s.runs[w].phase.Active() && !phase.Active()
    requires s' == SetRun(SetRow(s, s.runs[w].exec, r'), w, s.runs[w].(phase := phase))
    requires RowStep(cfg, s.rows[s.runs[w].exec], r') && r'.worker == s.rows[s.runs[w].exec].worker
    ensures Inv(cfg, s') && StoreEvolves(s, s')
  {
    HolderIsNamed(cfg, s, w);
    BusyOnlyIfBusy(s.rows[s.runs[w].exec], r');
    assert RunOk(s, w);
    hide RowOk, Evolves, Answered, RunAgrees, StoreEvolves;
    assert RunOk(s', w);
    assert WorkerMoves(s, s', w);
    hide RunOk, WorkerMoves;
    WorkerStepKeeps(cfg, s, s', w);
  }

  lemma SuspendKeeps(cfg: Settings, s: System, w: Id)
    requires Inv(cfg, s)
    ensures Inv(cfg, SuspendStep(s, w)) && StoreEvolves(s, SuspendStep(s, w))
  {
    SameStore(s);
    if MayWork(s, w) && s.runs[w].suspended.Some? && s.runs[w].answer.None? {
      var run := s.runs[w];
      var r := s.rows[run.exec];
      HolderIsNamed(cfg, s, w);
      SuspendKeepsRow(cfg, r, w, run.resume, run.suspended.value, s.now);
      hide Inv, RowOk, Evolves, StoreEvolves, ConsumeResume, CloseAttempt;
      EndingKeeps(cfg, s, SuspendStep(s, w), w, SuspendRow(r, w, run.resume, run.suspended.value, s.now), Ended);
    }
  }

  lemma FinishKeeps(cfg: Settings, s: System, w: Id)
    requires Inv(cfg, s)
    ensures Inv(cfg, FinishStep(s, w)) && StoreEvolves(s, FinishStep(s, w))
  {
    SameStore(s);
    if MayWork(s, w) && s.runs[w].suspended.None? && s.runs[w].answer.None? {
      var run := s.runs[w];
      var r := s.rows[run.exec];
      HolderIsNamed(cfg, s, w);
      FinishKeepsRow(cfg, r, w, run.resume, s.now);
      hide Inv, RowOk, Evolves, StoreEvolves, ConsumeResume, CloseAttempt;
      EndingKeeps(cfg, s, FinishStep(s, w), w, FinishRow(r, w, run.resume, s.now),
                  if FenceOf(r, w).Pass? then Finished else Ended);
    }
  }

  lemma FailKeeps(cfg: Settings, s: System, w: Id)
    requires Inv(cfg, s)
    ensures Inv(cfg, FailStep(s, w)) && StoreEvolves(s, FailStep(s, w))
  {
    SameStore(s);
    if HoldsLease(s, w) && s.runs[w].phase.Active() {
      var r := s.rows[s.runs[w].exec];
      HolderIsNamed(cfg, s, w);
      if r.status.Terminal() {
        SameRow(cfg, r);
      } else {
        EndKeepsRow(cfg, r, Failed, RuntimeFailure, AttemptFailed, s.now);
      }
      hide Inv, RowOk, Evolves, StoreEvolves, CloseAttempt;
      EndingKeeps(cfg, s, FailStep(s, w), w, FailStep(s, w).rows[s.runs[w].exec], Ended);
    }
  }

  /** Deleting a checkpoint at any later time breaks nothing the invariant says. */
  lemma CleanupKeeps(cfg: Settings, s: System, w: Id)
    requires Inv(cfg, s)
    ensures Inv(cfg, CleanupStep(s, w)) && StoreEvolves(s, CleanupStep(s, w))
  {
    SameStore(s);
    if Known(s, w) && s.runs[w].phase.Finished? {
      var s' := CleanupStep(s, w);
      hide RowOk, Evolves, Answered;
      forall v ensures RunOk(s', v) {
        assert RunOk(s, v);
      }
    }
  }

  lemma CrashKeeps(cfg: Settings, s: System, w: Id)
    requires Inv(cfg, s)
    ensures Inv(cfg, s.(runs := s.runs - {w})) && StoreEvolves(s, s.(runs := s.runs - {w}))
  {
    var s' := s.(runs := s.runs - {w});
    SameStore(s);
    hide RowOk, Evolves, Answered;
    forall v ensures RunOk(s', v) {
      assert RunOk(s, v);
    }
  }

  // ---------------------------------------------------------------- the graph

  /** The graph of `w` saves a checkpoint. */
  lemma SavedKeeps(cfg: Settings, s: System, w: Id, pending: map<Id, Digest>, suspended: Option<Interrupt>)
    requires Inv(cfg, s) && MaySave(s, w) && AtMostOnePending(pending)
    ensures Inv(cfg, SavedBy(s, w, pending, suspended)) && StoreEvolves(s, SavedBy(s, w, pending, suspended))
  {
    var s', r := SavedBy(s, w, pending, suspended), s.rows[s.runs[w].exec];
    HolderIsNamed(cfg, s, w);
    SameRow(cfg, r);
    assert RunOk(s, w);
    hide RowOk, Evolves, Answered, StoreEvolves;
    WorkerStepKeeps(cfg, s, s', w);
  }

  lemma SaveKeeps(cfg: Settings, s: System, w: Id)
    requires Inv(cfg, s)
    ensures Inv(cfg, SaveStep(s, w)) && StoreEvolves(s, SaveStep(s, w))
  {
    SameStore(s);
    hide Inv, StoreEvolves, SavedBy;
    if MaySave(s, w) {
      SavedKeeps(cfg, s, w, map[], None);
    }
  }

  lemma RaiseKeeps(cfg: Settings, s: System, w: Id, raised: Interrupt)
    requires Inv(cfg, s)
    ensures Inv(cfg, RaiseStep(s, w, raised)) && StoreEvolves(s, RaiseStep(s, w, raised))
  {
    SameStore(s);
    hide Inv, StoreEvolves, SavedBy;
    if MaySave(s, w) {
      SavedKeeps(cfg, s, w, map[raised.id := raised.callsHash], Some(raised));
    }
  }

  /** The graph of `w` no longer holds a resume value. */
  lemma ReleaseKeeps(cfg: Settings, s: System, w: Id)
    requires Inv(cfg, s) && MayWork(s, w)
    ensures var s' := SetRun(s, w, s.runs[w].(answer := None)); Inv(cfg, s') && StoreEvolves(s, s')
  {
    var s' := SetRun(s, w, s.runs[w].(answer := None));
    HolderIsNamed(cfg, s, w);
    SameRow(cfg, s.rows[s.runs[w].exec]);
    assert RunOk(s, w);
    hide RowOk, Evolves, Answered, StoreEvolves;
    assert RunOk(s', w);
    assert WorkerMoves(s, s', w);
    hide RunOk, WorkerMoves;
    WorkerStepKeeps(cfg, s, s', w);
  }

  lemma DropKeeps(cfg: Settings, s: System, w: Id)
    requires Inv(cfg, s)
    ensures Inv(cfg, DropStep(s, w)) && StoreEvolves(s, DropStep(s, w))
  {
    SameStore(s);
    hide Inv, StoreEvolves;
    if MayWork(s, w) {
      ReleaseKeeps(cfg, s, w);
    }
  }

  /** The value a graph receives is the one recorded for the interrupt it answers. */
  lemma HandedIsRecorded(cfg: Settings, s: System, w: Id, interrupt: Id)
    requires Inv(cfg, s) && MayWork(s, w) && s.runs[w].answer.Some? && Shown(s, s.runs[w].exec, interrupt)
    ensures Answered(s.rows[s.runs[w].exec], interrupt, s.runs[w].answer.value)
  {
    HolderIsNamed(cfg, s, w);
    assert s.rows[s.runs[w].exec].resumes[s.runs[w].resume.value].interruptId == interrupt;
  }

  lemma AnswerKeeps(cfg: Settings, s: System, w: Id, interrupt: Id)
    requires Inv(cfg, s)
    ensures Inv(cfg, AnswerStep(s, w, interrupt)) && StoreEvolves(s, AnswerStep(s, w, interrupt))
  {
    SameStore(s);
    if MayWork(s, w) && s.runs[w].answer.Some? && Shown(s, s.runs[w].exec, interrupt) {
      var quiet, s' := SetRun(s, w, s.runs[w].(answer := None)), AnswerStep(s, w, interrupt);
      ReleaseKeeps(cfg, s, w);
      HandedIsRecorded(cfg, s, w, interrupt);
      hide RowOk, Evolves, Answered;
      forall v ensures RunOk(s', v) {
        assert RunOk(quiet, v);
      }
    }
  }

  // ---------------------------------------------------------------- all actions

  predicate ByWorker(a: Action) {
    a.Claim? || a.Start? || a.Heartbeat? || a.Suspend? || a.Finish? || a.Cleanup? || a.Fail? || a.Crash?
  }

  predicate ByGraph(a: Action) {
    a.GraphAnswer? || a.GraphDrop? || a.GraphSave? || a.GraphSuspend?
  }

  predicate ByBroker(a: Action) {
    a.LockOutbox? || a.Send? || a.MarkPublished? || a.MarkRetry? || a.DispatcherDies? || a.Acknowledge? || a.Redeliver?
  }

  lemma WorkerKeeps(cfg: Settings, s: System, a: Action)
    requires Inv(cfg, s) && ByWorker(a)
    ensures Inv(cfg, Apply(cfg, s, a)) && StoreEvolves(s, Apply(cfg, s, a))
  {
    hide Inv, StoreEvolves, ClaimStep, StartStep, HeartbeatStep, SuspendStep, FinishStep, CleanupStep, FailStep;
    match a {
      case Claim(id, w, context, readable) => ClaimKeeps(cfg, s, id, w, context, readable);
      case Start(w) => StartKeeps(cfg, s, w);
      case Heartbeat(w) => HeartbeatKeeps(cfg, s, w);
      case Suspend(w) => SuspendKeeps(cfg, s, w);
      case Finish(w) => FinishKeeps(cfg, s, w);
      case Cleanup(w) => CleanupKeeps(cfg, s, w);
      case Fail(w) => FailKeeps(cfg, s, w);
      case Crash(w) => CrashKeeps(cfg, s, w);
    }
  }

  lemma GraphKeeps(cfg: Settings, s: System, a: Action)
    requires Inv(cfg, s) && ByGraph(a)
    ensures Inv(cfg, Apply(cfg, s, a)) && StoreEvolves(s, Apply(cfg, s, a))
  {
    hide Inv, StoreEvolves, AnswerStep, DropStep, SaveStep, RaiseStep;
    match a {
      case GraphAnswer(w, i) => AnswerKeeps(cfg, s, w, i);
      case GraphDrop(w) => DropKeeps(cfg, s, w);
      case GraphSave(w) => SaveKeeps(cfg, s, w);
      case GraphSuspend(w, raised) => RaiseKeeps(cfg, s, w, raised);
    }
  }

  lemma BrokerKeeps(cfg: Settings, s: System, a: Action)
    requires Inv(cfg, s) && ByBroker(a)
    ensures Inv(cfg, Apply(cfg, s, a)) && StoreEvolves(s, Apply(cfg, s, a))
  {
    hide Inv, StoreEvolves, LockStep, PublishStep, RetryStep;
    match a {
      case LockOutbox(d, batch) => LockKeeps(cfg, s, d, batch);
      case MarkPublished(d, id) => PublishKeeps(cfg, s, d, id);
      case MarkRetry(d, id) => RetryKeeps(cfg, s, d, id);
      case Send(_, _) => OnlyDeliveries(cfg, s, Apply(cfg, s, a));
      case DispatcherDies(_) => OnlyDeliveries(cfg, s, Apply(cfg, s, a));
      case Acknowledge(_) => OnlyDeliveries(cfg, s, Apply(cfg, s, a));
      case Redeliver(_) => OnlyDeliveries(cfg, s, Apply(cfg, s, a));
    }
  }

  lemma ServiceKeeps(cfg: Settings, s: System, a: Action)
    requires Inv(cfg, s) && !ByWorker(a) && !ByGraph(a) && !ByBroker(a)
    ensures Inv(cfg, Apply(cfg, s, a)) && StoreEvolves(s, Apply(cfg, s, a))
  {
    hide Inv, StoreEvolves, CreateStep, CancelStep, ResumeStep, DisableStep, RecoverStep;
    match a {
      case Tick(n) => TickKeeps(cfg, s, n);
      case CreateTurn(id, session, user, key) => CreateKeeps(cfg, s, id, session, user, key);
      case CancelTurn(id) => CancelKeeps(cfg, s, id);
      case ResumeTurn(id, value) => ResumeKeeps(cfg, s, id, value);
      case EnableUser(user) => OnlyDeliveries(cfg, s, s.(active := s.active + {user}));
      case DisableUser(user) => DisableKeeps(cfg, s, user);
      case Recover(unclaimed, expired) => RecoverKeeps(cfg, s, unclaimed, expired);
    }
  }

  lemma ApplyKeeps(cfg: Settings, s: System, a: Action)
    requires Inv(cfg, s)
    ensures Inv(cfg, Apply(cfg, s, a)) && StoreEvolves(s, Apply(cfg, s, a))
  {
    hide Inv, StoreEvolves, Apply;
    if ByWorker(a) {
      WorkerKeeps(cfg, s, a);
    } else if ByGraph(a) {
      GraphKeeps(cfg, s, a);
    } else if ByBroker(a) {
      BrokerKeeps(cfg, s, a);
    } else {
      ServiceKeeps(cfg, s, a);
    }
  }
}
