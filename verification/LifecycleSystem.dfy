/**
 The whole store and the processes that drive it: API calls, dispatchers, the broker, workers, their
 graphs, the recovery beat and account administration. One `Action` is one database transaction,
 one checkpoint write or one broker operation; a run is any sequence of actions, so every
 interleaving is a run.

 Three hypotheses about the processes are built into the actions:
   H1  the runner's check-then-write pairs (start gate, suspension, finish) are single actions;
   H2  a worker acts on its execution only while its own lease has not run out
       (`HoldsLease`); heartbeats are exempt, they only need the row to name the worker, and so is
       the checkpoint cleanup after a committed finish;
   H3  a worker id is used for one claim only (`used`).
 */
module LifecycleSystem {
  import opened Wrappers
  import opened Lifecycle

  /** `Finished` is a worker that committed `completed` and has not cleaned up its checkpoint yet. */
  datatype Phase = Starting | Working | Finished | Ended {
    predicate Active() {
      Starting? || Working?
    }
  }

  /** The state local to one worker process. */
  datatype WorkerRun = WorkerRun(
    exec: Id, phase: Phase, leaseUntil: Time,
    resume: Option<nat>,            // index of the resume request it claimed
    answer: Option<Token>,         // resume value not yet handed to the graph
    suspended: Option<Interrupt>)   // interrupt the graph raised

  /** A resume value handed to the graph for an interrupt. */
  datatype Answer = Answer(exec: Id, interrupt: Id, value: Token)

  datatype System = System(
    now: Time,
    rows: map<Id, Row>,
    active: set<Id>,                    // users whose status is "active"
    threads: map<Id, map<Id, Digest>>,  // per session: the saved checkpoint's pending interrupts
    queue: multiset<Id>,                // broker messages whose claim has not returned
    taken: multiset<Id>,                // broker messages claimed but not acknowledged
    locked: set<(Id, Id)>,              // (dispatcher, execution): locked, not yet settled
    delivered: set<(Id, Id)>,           // (dispatcher, execution): sent, not yet settled
    runs: map<Id, WorkerRun>,
    used: set<Id>,
    answers: seq<Answer>,               // every value ever handed to a graph
    cleared: set<(Id, Id)>)             // (execution, interrupt): shown by a checkpoint that was deleted

  const EMPTY_SYSTEM :=
    System(0, map[], {}, map[], multiset{}, multiset{}, {}, {}, map[], {}, [], {})

  datatype Action =
    | Tick(seconds: nat)
    | CreateTurn(id: Id, session: Id, user: Id, key: Option<Token>)
    | CancelTurn(id: Id)
    | ResumeTurn(id: Id, value: Option<Token>)
    | EnableUser(user: Id)
    | DisableUser(user: Id)
    | Recover(unclaimed: set<Id>, expired: set<Id>)   // rows another transaction locks are skipped
    | LockOutbox(dispatcher: Id, batch: set<Id>)
    | Send(dispatcher: Id, id: Id)
    | MarkPublished(dispatcher: Id, id: Id)
    | MarkRetry(dispatcher: Id, id: Id)
    | DispatcherDies(dispatcher: Id)
    | Acknowledge(id: Id)
    | Redeliver(id: Id)
    | Claim(id: Id, worker: Id, context: ClaimContext, readable: bool)
    | Start(worker: Id)
    | Heartbeat(worker: Id)
    | GraphAnswer(worker: Id, interrupt: Id)
    | GraphDrop(worker: Id)
    | GraphSave(worker: Id)
    | GraphSuspend(worker: Id, raised: Interrupt)
    | Suspend(worker: Id)
    | Finish(worker: Id)
    | Cleanup(worker: Id)
    | Fail(worker: Id)
    | Crash(worker: Id)

  predicate Known(s: System, w: Id) {
    w in s.runs && s.runs[w].exec in s.rows
  }

  predicate HoldsLease(s: System, w: Id) {
    Known(s, w) && s.now < s.runs[w].leaseUntil
  }

  /** H2 for a runner that is past its start gate. */
  predicate MayWork(s: System, w: Id) {
    HoldsLease(s, w) && s.runs[w].phase.Working?
  }

  function Session(s: System, w: Id): Id
    requires Known(s, w)
  {
    s.rows[s.runs[w].exec].session
  }

  function Checkpoint(s: System, session: Id, readable: bool): CheckpointView {
    if !readable then Unreadable
    else if session in s.threads then Saved(s.threads[session]) else NoCheckpoint
  }

  /** The checkpoint of the execution's session shows the interrupt as pending. */
  predicate Shown(s: System, id: Id, interrupt: Id) {
    id in s.rows && s.rows[id].session in s.threads && interrupt in s.threads[s.rows[id].session]
  }

  /** The turn an idempotency key replays, if the session already has one. */
  ghost predicate Replays(s: System, session: Id, key: Option<Token>) {
    key.Some? && exists id | id in s.rows :: s.rows[id].session == session && s.rows[id].key == key
  }

  ghost predicate SessionBusy(s: System, session: Id) {
    exists id | id in s.rows :: s.rows[id].session == session && s.rows[id].status.Busy()
  }

  /** A dispatcher that has settled everything it locked; only then does it lock the next batch. */
  ghost predicate Idle(s: System, d: Id) {
    forall id :: (d, id) !in s.locked
  }

  function SetRow(s: System, id: Id, r: Row): System {
    s.(rows := s.rows[id := r])
  }

  function SetRun(s: System, w: Id, run: WorkerRun): System {
    s.(runs := s.runs[w := run])
  }

  // ---------------------------------------------------------------- API and administration

  ghost function CreateStep(s: System, id: Id, session: Id, user: Id, key: Option<Token>): System {
    if id in s.rows || Replays(s, session, key) || SessionBusy(s, session) then s
    else SetRow(s, id, NewRow(session, user, key, s.now))
  }

  function CancelStep(s: System, id: Id): System {
    if id in s.rows then SetRow(s, id, CancelRow(s.rows[id], s.now)) else s
  }

  function ResumeStep(s: System, id: Id, value: Option<Token>): System {
    if id in s.rows then SetRow(s, id, ResumeRow(s.rows[id], value, s.now)) else s
  }

  function DisableStep(s: System, user: Id): System {
    s.(active := s.active - {user},
       rows := map id | id in s.rows ::
         if s.rows[id].user == user then DisableRow(s.rows[id], s.now) else s.rows[id])
  }

  // ---------------------------------------------------------------- recovery

  /** First pass of the recovery beat: published rows nobody claimed in time. */
  function ExpireAll(cfg: Settings, s: System, unclaimed: set<Id>): System {
    s.(rows := map id | id in s.rows ::
         if id in unclaimed then ExpireUnclaimed(cfg, s.rows[id], s.now) else s.rows[id])
  }

  /** Second pass: rows whose lease has run out. */
  function RecoverAll(cfg: Settings, s: System, expired: set<Id>): System {
    s.(rows := map id | id in s.rows ::
         if id in expired then RecoverLease(cfg, s.rows[id], s.now) else s.rows[id])
  }

  function RecoverStep(cfg: Settings, s: System, unclaimed: set<Id>, expired: set<Id>): System {
    RecoverAll(cfg, ExpireAll(cfg, s, unclaimed), expired)
  }

  // ---------------------------------------------------------------- dispatcher and broker

  ghost function LockStep(s: System, d: Id, batch: set<Id>): System {
    if !Idle(s, d) then s
    else
      s.(locked := s.locked
           + set id | id in s.rows && id in batch
                      && s.rows[id].outbox.Some? && Dispatchable(s.rows[id].outbox.value, s.now) :: (d, id),
         rows := map id | id in s.rows ::
           if id in batch then LockRow(s.rows[id], d, s.now) else s.rows[id])
  }

  function SendStep(s: System, d: Id, id: Id): System {
    if (d, id) in s.locked
    then s.(queue := s.queue + multiset{id}, delivered := s.delivered + {(d, id)}) else s
  }

  /** The dispatcher records the outcome of a delivery and forgets it. */
  function Settle(s: System, d: Id, id: Id, r: Row): System {
    SetRow(s, id, r).(delivered := s.delivered - {(d, id)}, locked := s.locked - {(d, id)})
  }

  function PublishStep(s: System, d: Id, id: Id): System {
    if (d, id) in s.delivered && id in s.rows
    then Settle(s, d, id, MarkPublishedRow(s.rows[id], d, s.now)) else s
  }

  /** A send that raised may still have reached the broker. */
  function RetryStep(s: System, d: Id, id: Id): System {
    if (d, id) in s.locked && id in s.rows
    then Settle(s, d, id, MarkRetryRow(s.rows[id], d, s.now)) else s
  }

  function DispatcherDiesStep(s: System, d: Id): System {
    s.(locked := (set p | p in s.locked && p.0 != d), delivered := (set p | p in s.delivered && p.0 != d))
  }

  /** A message is gone for good only after the claim it led to has returned. */
  function AcknowledgeStep(s: System, id: Id): System {
    s.(taken := s.taken - multiset{id})
  }

  /** An unacknowledged message comes back: its worker was lost or its visibility timeout passed. */
  function RedeliverStep(s: System, id: Id): System {
    if id in s.taken then s.(taken := s.taken - multiset{id}, queue := s.queue + multiset{id}) else s
  }

  // ---------------------------------------------------------------- workers

  function ClaimStep(cfg: Settings, s: System, id: Id, w: Id, context: ClaimContext, readable: bool): System {
    if id !in s.rows || id !in s.queue || w in s.used then s
    else
      var r := s.rows[id];
      var (r', outcome) :=
        ClaimRow(cfg, r, w, s.now, context, r.user in s.active, Checkpoint(s, r.session, readable));
      var s' := SetRow(s, id, r').(used := s.used + {w},
                                  queue := s.queue - multiset{id}, taken := s.taken + multiset{id});
      match outcome
      case Refused => s'
      case Granted(resume, answer, _) =>
        SetRun(s', w, WorkerRun(id, Starting, s.now + cfg.leaseSeconds, resume, answer, None))
  }

  function StartStep(cfg: Settings, s: System, w: Id): System {
    if HoldsLease(s, w) && s.runs[w].phase.Starting? then
      var run := s.runs[w];
      var (r', outcome) := StartGate(cfg, s.rows[run.exec], s.now);
      SetRun(SetRow(s, run.exec, r'), w, run.(phase := if outcome.Started? then Working else Ended))
    else s
  }

  function HeartbeatStep(cfg: Settings, s: System, w: Id): System {
    if !Known(s, w) || s.rows[s.runs[w].exec].status.Terminal() || s.rows[s.runs[w].exec].worker != Some(w) then s
    else
      var run := s.runs[w];
      SetRun(SetRow(s, run.exec, HeartbeatRow(cfg, s.rows[run.exec], w, s.now)), w,
             run.(leaseUntil := s.now + cfg.leaseSeconds))
  }

  function SuspendStep(s: System, w: Id): System {
    if MayWork(s, w) && s.runs[w].suspended.Some? && s.runs[w].answer.None? then
      var run := s.runs[w];
      SetRun(SetRow(s, run.exec, SuspendRow(s.rows[run.exec], w, run.resume, run.suspended.value, s.now)),
             w, run.(phase := Ended))
    else s
  }

  function FinishStep(s: System, w: Id): System {
    if MayWork(s, w) && s.runs[w].suspended.None? && s.runs[w].answer.None? then
      var run := s.runs[w];
      var r := s.rows[run.exec];
      SetRun(SetRow(s, run.exec, FinishRow(r, w, run.resume, s.now)), w,
             run.(phase := if FenceOf(r, w).Pass? then Finished else Ended))
    else s
  }

  /** The executions and interrupts that the checkpoint of a session shows. */
  function ShownBy(s: System, session: Id): set<(Id, Id)> {
    if session in s.threads
    then set id, i | id in s.rows && s.rows[id].session == session && i in s.threads[session] :: (id, i)
    else {}
  }

  /** clear_thread_persistence after a committed finish, whatever has happened to the session since. */
  function CleanupStep(s: System, w: Id): System {
    if Known(s, w) && s.runs[w].phase.Finished? then
      SetRun(s, w, s.runs[w].(phase := Ended))
      .(threads := s.threads - {Session(s, w)}, cleared := s.cleared + ShownBy(s, Session(s, w)))
    else s
  }

  function FailStep(s: System, w: Id): System {
    if HoldsLease(s, w) && s.runs[w].phase.Active() then
      var run := s.runs[w];
      var r := s.rows[run.exec];
      SetRun(SetRow(s, run.exec, if run.phase.Starting? && r.status.Terminal() then r else FailedRow(r, s.now)),
             w, run.(phase := Ended))
    else s
  }

  // ---------------------------------------------------------------- the graph of a worker

  /** The graph receives the resume value for an interrupt its checkpoint shows; nothing is saved yet. */
  function AnswerStep(s: System, w: Id, interrupt: Id): System {
    if MayWork(s, w) && s.runs[w].answer.Some? && Shown(s, s.runs[w].exec, interrupt)
    then SetRun(s, w, s.runs[w].(answer := None))
         .(answers := s.answers + [Answer(s.runs[w].exec, interrupt, s.runs[w].answer.value)])
    else s
  }

  /** The graph finds no checkpoint that could receive the resume value. */
  function DropStep(s: System, w: Id): System {
    if MayWork(s, w) && s.runs[w].answer.Some? && Session(s, w) !in s.threads
    then SetRun(s, w, s.runs[w].(answer := None)) else s
  }

  predicate MaySave(s: System, w: Id) {
    MayWork(s, w) && s.runs[w].answer.None? && s.runs[w].suspended.None?
  }

  /** The store after the graph of worker `w` saved a checkpoint with `pending` interrupts. */
  function SavedBy(s: System, w: Id, pending: map<Id, Digest>, suspended: Option<Interrupt>): System
    requires Known(s, w)
  {
    SetRun(s, w, s.runs[w].(suspended := suspended)).(threads := s.threads[Session(s, w) := pending])
  }

  function SaveStep(s: System, w: Id): System {
    if MaySave(s, w) then SavedBy(s, w, map[], None) else s
  }

  function RaiseStep(s: System, w: Id, raised: Interrupt): System {
    if MaySave(s, w) then SavedBy(s, w, map[raised.id := raised.callsHash], Some(raised)) else s
  }

  // ---------------------------------------------------------------- runs

  /** The effect of one action; an action whose guard fails changes nothing. */
  ghost function Apply(cfg: Settings, s: System, a: Action): System {
    match a
    case Tick(n) => s.(now := s.now + n)
    case CreateTurn(id, session, user, key) => CreateStep(s, id, session, user, key)
    case CancelTurn(id) => CancelStep(s, id)
    case ResumeTurn(id, value) => ResumeStep(s, id, value)
    case EnableUser(user) => s.(active := s.active + {user})
    case DisableUser(user) => DisableStep(s, user)
    case Recover(unclaimed, expired) => RecoverStep(cfg, s, unclaimed, expired)
    case LockOutbox(d, batch) => LockStep(s, d, batch)
    case Send(d, id) => SendStep(s, d, id)
    case MarkPublished(d, id) => PublishStep(s, d, id)
    case MarkRetry(d, id) => RetryStep(s, d, id)
    case DispatcherDies(d) => DispatcherDiesStep(s, d)
    case Acknowledge(id) => AcknowledgeStep(s, id)
    case Redeliver(id) => RedeliverStep(s, id)
    case Claim(id, w, context, readable) => ClaimStep(cfg, s, id, w, context, readable)
    case Start(w) => StartStep(cfg, s, w)
    case Heartbeat(w) => HeartbeatStep(cfg, s, w)
    case GraphAnswer(w, i) => AnswerStep(s, w, i)
    case GraphDrop(w) => DropStep(s, w)
    case GraphSave(w) => SaveStep(s, w)
    case GraphSuspend(w, raised) => RaiseStep(s, w, raised)
    case Suspend(w) => SuspendStep(s, w)
    case Finish(w) => FinishStep(s, w)
    case Cleanup(w) => CleanupStep(s, w)
    case Fail(w) => FailStep(s, w)
    case Crash(w) => s.(runs := s.runs - {w})
  }

  ghost function Run(cfg: Settings, s: System, actions: seq<Action>): System
    decreases |actions|
  {
    if actions == [] then s else Run(cfg, Apply(cfg, s, actions[0]), actions[1..])
  }

  /** A state some run from the empty store reaches. */
  ghost predicate Reachable(cfg: Settings, s: System) {
    exists actions :: Run(cfg, EMPTY_SYSTEM, actions) == s
  }
}
