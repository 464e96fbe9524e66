/**
 The audit row of a tool call and what it promises about side effects: for one execution and one
 tool_call_id, over any retries, crashes, timeouts and failures. Reading and marking the row at the start
 of a call is one step.
 */
module ToolAudit {
  import opened Wrappers

  datatype Status = Running | Completed | Failed

  datatype Row = Row(status: Status, error: string, resultDigest: string, finished: bool)

  /** How the wait for a tool ends, when its process survives. */
  datatype Ending =
    | Returned(digest: string)
    /** The time limit passed; a thread that is running cannot be stopped. */
    | TimedOut
    /** The tool itself raised a TimeoutError, which is handled like the limit. */
    | RaisedTimeout
    | Raised(error: string)
    | Bubbled
    /** Another exception interrupted the wait while the tool's thread goes on. */
    | Aborted(error: string)

  /** The row _finish_audit leaves behind: only the error text tells a failure from a success. */
  function FinishedRow(error: string, digest: string, keepRunning: bool): Row {
    Row(if keepRunning then Running else if error != "" then Failed else Completed,
        if |error| > 2000 then error[..2000] else error, digest, !keepRunning)
  }

  /** The row at the end of a call; `timeout` is the message about the time limit. */
  function RowAfter(ending: Ending, sideEffecting: bool, timeout: string): Row {
    match ending
    case Returned(digest) => FinishedRow("", digest, false)
    case TimedOut => FinishedRow(timeout, "", sideEffecting)
    case RaisedTimeout => FinishedRow(timeout, "", sideEffecting)
    case Raised(error) => FinishedRow(error, "", false)
    case Bubbled => FinishedRow("GRAPH_INTERRUPT", "", false)
    case Aborted(error) => FinishedRow(error, "", false)
  }

  const STARTED_ROW := Row(Running, "", "", false)

  /** A start is refused when the effect has happened or may be under way. */
  predicate Refused(row: Option<Row>, sideEffecting: bool) {
    sideEffecting && row.Some? && row.value.status != Failed
  }

  // ---------------------------------------------------------------- the row, updated in place

  datatype Reply = Answered | AlreadyCompleted | InProgress | TimeoutError | ToolError | Interrupt

  class AuditLedger {
    var row: Option<Row>

    constructor ()
      ensures row == None
    {
      row := None;
    }

    method StartAudit(sideEffecting: bool) returns (reused: bool, inProgress: bool)
      modifies this
      ensures reused || inProgress <==> Refused(old(row), sideEffecting)
      ensures reused ==> old(row).value.status == Completed
      ensures inProgress ==> old(row).value.status == Running
      ensures row == if Refused(old(row), sideEffecting) then old(row) else Some(STARTED_ROW)
    {
      if row.Some? {
        if sideEffecting && row.value.status == Completed {
          return true, false;
        }
        if sideEffecting && row.value.status == Running {
          return false, true;
        }
      }
      row := Some(Row(Running, "", "", false));
      return false, false;
    }

    method FinishAudit(digest: string, error: string, keepRunning: bool)
      modifies this
      ensures row == if old(row).None? then None else Some(FinishedRow(error, digest, keepRunning))
    {
      if row.Some? {
        var r := row.value;
        r := r.(resultDigest := digest);
        r := r.(error := if |error| > 2000 then error[..2000] else error);
        r := r.(status := if keepRunning then Running else if error != "" then Failed else Completed);
        r := r.(finished := !keepRunning);
        row := Some(r);
      }
    }

    /** execute_tool_call around one call of the tool, which is made only if the start is not refused. */
    method ExecuteToolCall(sideEffecting: bool, ending: Ending, timeout: string) returns (reply: Reply, invoked: bool)
      modifies this
      ensures invoked <==> !Refused(old(row), sideEffecting)
      ensures row == if invoked then Some(RowAfter(ending, sideEffecting, timeout)) else old(row)
      ensures reply == AlreadyCompleted <==> sideEffecting && old(row).Some? && old(row).value.status == Completed
      ensures reply == InProgress <==> sideEffecting && old(row).Some? && old(row).value.status == Running
      ensures reply == Answered <==> invoked && ending.Returned?
    {
      var reused, inProgress := StartAudit(sideEffecting);
      invoked := false;
      if reused {
        return AlreadyCompleted, invoked;
      }
      if inProgress {
        return InProgress, invoked;
      }
      invoked := true;
      match ending {
        case Returned(digest) =>
          FinishAudit(digest, "", false);
          reply := Answered;
        case TimedOut =>
          FinishAudit("", timeout, sideEffecting);
          reply := TimeoutError;
        case RaisedTimeout =>
          FinishAudit("", timeout, sideEffecting);
          reply := TimeoutError;
        case Bubbled =>
          FinishAudit("", "GRAPH_INTERRUPT", false);
          reply := Interrupt;
        case Raised(error) =>
          FinishAudit("", error, false);
          reply := ToolError;
        case Aborted(error) =>
          FinishAudit("", error, false);
          reply := ToolError;
      }
    }
  }

  // ---------------------------------------------------------------- calls and their threads

  /** A call of the tool: awaited, running on without anyone waiting, or over. */
  datatype Phase = Awaited | Abandoned | Over

  /** The row of a side-effecting call, with every invocation of the tool ever made for it. */
  datatype Ledger = Ledger(row: Option<Row>, calls: seq<Phase>)

  datatype Action =
    /** The call is made, or refused, by any worker at any time. */
    | Call
    /** The wait of call `i` ends. */
    | Finish(i: nat, ending: Ending, timeout: string)
    /** An abandoned thread comes to its end. */
    | ThreadEnds(i: nat)
    /** The process of call `i` is gone. */
    | ProcessDies(i: nat)

  predicate InPhase(l: Ledger, i: nat, phase: Phase) {
    i < |l.calls| && l.calls[i] == phase
  }

  function Apply(l: Ledger, a: Action): Ledger {
    match a
    case Call =>
      if Refused(l.row, true) then l else Ledger(Some(STARTED_ROW), l.calls + [Awaited])
    case Finish(i, ending, timeout) =>
      if InPhase(l, i, Awaited) then
        var leftRunning := ending.TimedOut? || ending.Aborted?;
        Ledger(Some(RowAfter(ending, true, timeout)), l.calls[i := if leftRunning then Abandoned else Over])
      else l
    case ThreadEnds(i) => if InPhase(l, i, Abandoned) then l.(calls := l.calls[i := Over]) else l
    case ProcessDies(i) => if i < |l.calls| then l.(calls := l.calls[i := Over]) else l
  }

  function Run(l: Ledger, actions: seq<Action>): Ledger {
    if actions == [] then l else Apply(Run(l, actions[..|actions| - 1]), actions[|actions| - 1])
  }

  const NEW_LEDGER := Ledger(None, [])

  // ---------------------------------------------------------------- at most once

  predicate Live(l: Ledger, i: nat) {
    i < |l.calls| && l.calls[i] != Over
  }

  predicate AtMostOneLive(l: Ledger) {
    forall i, j | 0 <= i < |l.calls| && 0 <= j < |l.calls| :: Live(l, i) && Live(l, j) ==> i == j
  }

  /** A call that may still have an effect keeps the row from being started again. */
  predicate Guarded(l: Ledger) {
    && AtMostOneLive(l)
    && (l.row.None? ==> l.calls == [])
    && (forall i | 0 <= i < |l.calls| :: Live(l, i) ==> Refused(l.row, true))
    && (forall i | 0 <= i < |l.calls| :: l.calls[i] == Awaited ==> l.row.Some? && l.row.value.status == Running)
  }

  /** The one step that lets a second invocation in: the row is marked failed under a live thread. */
  predicate Unguards(l: Ledger, a: Action) {
    a.Finish? && InPhase(l, a.i, Awaited) && a.ending.Aborted? && a.ending.error != ""
  }

  lemma ApplyGuards(l: Ledger, a: Action)
    requires Guarded(l) && !Unguards(l, a)
    ensures Guarded(Apply(l, a))
  {
    hide FinishedRow;
    var after := Apply(l, a);
    forall i | Live(after, i) ensures Live(l, i) || (a.Call? && i == |l.calls| && !Refused(l.row, true)) {
    }
    if a.Finish? && InPhase(l, a.i, Awaited) {
      assert Live(l, a.i);
      forall j | 0 <= j < |l.calls| && j != a.i ensures after.calls[j] == Over {
        assert !Live(l, j) && after.calls[j] == l.calls[j];
      }
      FinishGuards(a.ending, a.timeout);
    }
  }

  /** Whatever leaves a thread behind leaves a row that refuses the next call. */
  lemma FinishGuards(ending: Ending, timeout: string)
    ensures ending.TimedOut? || (ending.Aborted? && ending.error == "")
        ==> Refused(Some(RowAfter(ending, true, timeout)), true)
  {
  }

  /** After an unguarding step, the next call runs beside the one that never ended. */
  lemma UnguardedRepeats(l: Ledger, a: Action)
    requires Guarded(l) && Unguards(l, a)
    ensures !AtMostOneLive(Apply(Apply(l, a), Call))
  {
    var l2 := Apply(Apply(l, a), Call);
    assert Live(l2, a.i) && Live(l2, |l.calls|);
  }

  predicate NeverUnguarded(actions: seq<Action>) {
    forall k | 0 <= k < |actions| :: !Unguards(Run(NEW_LEDGER, actions[..k]), actions[k])
  }

  /** At every point of the run, one more call would still leave at most one invocation live. */
  predicate CallsStaySingle(actions: seq<Action>) {
    forall k | 0 <= k <= |actions| :: AtMostOneLive(Apply(Run(NEW_LEDGER, actions[..k]), Call))
  }

  lemma {:induction false} RunGuards(actions: seq<Action>)
    requires NeverUnguarded(actions)
    ensures Guarded(Run(NEW_LEDGER, actions))
  {
    hide Guarded, Apply, Unguards;
    if actions == [] {
      assert Guarded(NEW_LEDGER) by { EmptyIsGuarded(); }
    } else {
      var n := |actions| - 1;
      var before := actions[..n];
      forall k | 0 <= k < n ensures !Unguards(Run(NEW_LEDGER, before[..k]), before[k]) {
        assert before[..k] == actions[..k] && before[k] == actions[k];
      }
      RunGuards(before);
      ApplyGuards(Run(NEW_LEDGER, before), actions[n]);
    }
  }

  lemma EmptyIsGuarded()
    ensures Guarded(NEW_LEDGER)
  {
  }

  /** The first unguarding step of a run, all of whose earlier steps kept the guard. */
  lemma {:induction false} FirstUnguarding(actions: seq<Action>, k: nat) returns (first: nat)
    requires k < |actions| && Unguards(Run(NEW_LEDGER, actions[..k]), actions[k])
    ensures first < |actions| && Unguards(Run(NEW_LEDGER, actions[..first]), actions[first])
    ensures NeverUnguarded(actions[..first])
  {
    hide Unguards, Run;
    if j :| 0 <= j < k && Unguards(Run(NEW_LEDGER, actions[..j]), actions[j]) {
      first := FirstUnguarding(actions, j);
    } else {
      first := k;
      forall j | 0 <= j < k ensures !Unguards(Run(NEW_LEDGER, actions[..k][..j]), actions[..k][j]) {
        assert actions[..k][..j] == actions[..j];
      }
    }
  }

  /**
   Never two live invocations, whatever retries follow, exactly when no wait is interrupted with an error
   message while its thread goes on.
   */
  lemma AtMostOnceExactly(actions: seq<Action>)
    ensures CallsStaySingle(actions) <==> NeverUnguarded(actions)
  {
    hide Guarded, Apply, Unguards, AtMostOneLive, Run;
    if NeverUnguarded(actions) {
      forall k | 0 <= k <= |actions| ensures AtMostOneLive(Apply(Run(NEW_LEDGER, actions[..k]), Call)) {
        forall j | 0 <= j < k ensures !Unguards(Run(NEW_LEDGER, actions[..k][..j]), actions[..k][j]) {
          assert actions[..k][..j] == actions[..j];
        }
        RunGuards(actions[..k]);
        CallIsSingle(Run(NEW_LEDGER, actions[..k]));
      }
    } else {
      var k :| 0 <= k < |actions| && Unguards(Run(NEW_LEDGER, actions[..k]), actions[k]);
      var first := FirstUnguarding(actions, k);
      var l := Run(NEW_LEDGER, actions[..first]);
      RunGuards(actions[..first]);
      UnguardedRepeats(l, actions[first]);
      RunSnoc(actions, first);
    }
  }

  lemma CallIsSingle(l: Ledger)
    requires Guarded(l)
    ensures AtMostOneLive(Apply(l, Call))
  {
    ApplyGuards(l, Call);
  }

  lemma RunSnoc(actions: seq<Action>, k: nat)
    requires k < |actions|
    ensures Run(NEW_LEDGER, actions[..k + 1]) == Apply(Run(NEW_LEDGER, actions[..k]), actions[k])
  {
    hide Apply;
    assert actions[..k + 1][..k] == actions[..k];
  }

  /** Once the row says completed no invocation is started any more, and it goes on saying so. */
  lemma {:induction false} CompletedIsFinal(l: Ledger, actions: seq<Action>)
    requires l.row.Some? && l.row.value.status == Completed
    requires forall i | 0 <= i < |l.calls| :: l.calls[i] != Awaited
    ensures var after := Run(l, actions);
            && after.row == l.row && |after.calls| == |l.calls|
            && forall i | 0 <= i < |l.calls| :: after.calls[i] != Awaited
  {
    if actions != [] {
      CompletedIsFinal(l, actions[..|actions| - 1]);
    }
  }

  /** In every run, guarded or not: the row of an awaited call says running, and only one call is awaited. */
  ghost predicate Awaiting(l: Ledger) {
    && (forall i | InPhase(l, i, Awaited) :: l.row.Some? && l.row.value.status == Running)
    && forall i, j | InPhase(l, i, Awaited) && InPhase(l, j, Awaited) :: i == j
  }

  lemma ApplyAwaits(l: Ledger, a: Action)
    requires Awaiting(l)
    ensures Awaiting(Apply(l, a))
  {
    hide FinishedRow;
    var after := Apply(l, a);
    forall i | InPhase(after, i, Awaited) ensures InPhase(l, i, Awaited) || (a.Call? && i == |l.calls|) {
    }
    if a.Finish? && InPhase(l, a.i, Awaited) {
      assert forall i | InPhase(after, i, Awaited) :: i == a.i;
    }
  }

  lemma {:induction false} RunAwaits(actions: seq<Action>)
    ensures Awaiting(Run(NEW_LEDGER, actions))
  {
    hide Awaiting, Apply;
    if actions == [] {
      assert Awaiting(NEW_LEDGER) by { NoneAwaited(); }
    } else {
      RunAwaits(actions[..|actions| - 1]);
      ApplyAwaits(Run(NEW_LEDGER, actions[..|actions| - 1]), actions[|actions| - 1]);
    }
  }

  lemma NoneAwaited()
    ensures Awaiting(NEW_LEDGER)
  {
  }

  /** In every run, after a call was recorded as completed the tool is never invoked again. */
  lemma {:induction false} NoneAfterCompleted(actions: seq<Action>, more: seq<Action>)
    requires var row := Run(NEW_LEDGER, actions).row; row.Some? && row.value.status == Completed
    ensures var l := Run(NEW_LEDGER, actions);
            Run(l, more).row == l.row && |Run(l, more).calls| == |l.calls|
  {
    hide Run;
    var l := Run(NEW_LEDGER, actions);
    RunAwaits(actions);
    forall i | 0 <= i < |l.calls| ensures l.calls[i] != Awaited {
      assert InPhase(l, i, l.calls[i]);
    }
    CompletedIsFinal(l, more);
  }

  /** Completed does not mean succeeded: an exception without a message is recorded as completed. */
  lemma SilentFailureIsCompleted(ending: Ending, timeout: string)
    requires timeout != ""
    ensures RowAfter(ending, true, timeout).status == Completed
        <==> ending.Returned? || ((ending.Raised? || ending.Aborted?) && ending.error == "")
  {
  }

  /** What is kept of an error text: its first 2000 characters. */
  predicate KeptText(stored: string, error: string) {
    stored <= error && |stored| == if |error| <= 2000 then |error| else 2000
  }

  /** The row after every ending: its status, its error text, its result, and whether it is finished. */
  lemma EndingsAreRecorded(ending: Ending, sideEffecting: bool, timeout: string)
    requires timeout != ""
    ensures var row := RowAfter(ending, sideEffecting, timeout);
            && (row.status == Running <==> sideEffecting && (ending.TimedOut? || ending.RaisedTimeout?))
            && (row.status == Completed <==>
                  ending.Returned? || ((ending.Raised? || ending.Aborted?) && ending.error == ""))
            && (row.finished <==> row.status != Running)
            && row.resultDigest == (if ending.Returned? then ending.digest else "")
            && (ending.Returned? ==> row.error == "")
            && (ending.TimedOut? || ending.RaisedTimeout? ==> KeptText(row.error, timeout))
            && (ending.Raised? || ending.Aborted? ==> KeptText(row.error, ending.error))
            && (ending.Bubbled? ==> row.status == Failed && row.error == "GRAPH_INTERRUPT")
  {
  }

  /** A call that is let in leaves a row that says running until it ends. */
  lemma StartIsRecorded(l: Ledger)
    ensures if l.row.Some? && l.row.value.status in {Running, Completed} then Apply(l, Call) == l
            else Apply(l, Call).row == Some(Row(Running, "", "", false))
                 && |Apply(l, Call).calls| == |l.calls| + 1 && Live(Apply(l, Call), |l.calls|)
  {
  }

  /** When a thread ends or its process is gone, that invocation is over; the row and the others stay. */
  lemma EndedIsOver(l: Ledger, i: nat)
    requires i < |l.calls|
    ensures !Live(Apply(l, ProcessDies(i)), i) && (l.calls[i] == Abandoned ==> !Live(Apply(l, ThreadEnds(i)), i))
    ensures forall a | a == ProcessDies(i) || a == ThreadEnds(i) ::
              Apply(l, a).row == l.row && |Apply(l, a).calls| == |l.calls|
              && forall j | 0 <= j < |l.calls| && j != i :: Apply(l, a).calls[j] == l.calls[j]
  {
  }

  /** The end of a wait: a thread that cannot be stopped goes on unattended, any other invocation is over. */
  lemma WaitEnds(l: Ledger, i: nat, ending: Ending, timeout: string)
    requires InPhase(l, i, Awaited)
    ensures var after := Apply(l, Finish(i, ending, timeout));
            && (Live(after, i) <==> ending.TimedOut? || ending.Aborted?) && !InPhase(after, i, Awaited)
            && after.row == Some(RowAfter(ending, true, timeout)) && |after.calls| == |l.calls|
            && forall j | 0 <= j < |l.calls| && j != i :: after.calls[j] == l.calls[j]
  {
  }
}
