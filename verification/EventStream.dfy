/**
 The live event stream of one execution: an atomic sequence publisher over a bounded Redis
 stream, and readers that replay it by cursor. One lifetime of the two Redis keys is modelled.
 */
module EventStream {
  import opened Wrappers

  datatype Event = Event(sequence: nat, kind: string, payload: string)

  datatype StreamError = ReplayGap | InvalidCursor | ReplayExpired

  datatype Bounds = Bounds(earliest: Option<nat>, latest: Option<nat>, streamExists: bool, sequenceExists: bool)

  // ---------------------------------------------------------------- cursor validation

  /** EXISTS over both keys gives a count; the source reads its two lowest bits as flags. */
  function BoundsOf(entries: seq<Event>, sequenceKey: bool): Bounds {
    var count := (if entries != [] then 1 else 0) + (if sequenceKey then 1 else 0);
    Bounds(
      if entries == [] then None else Some(entries[0].sequence),
      if entries == [] then None else Some(entries[|entries| - 1].sequence),
      count % 2 == 1,
      count / 2 == 1)
  }

  function ValidateCursor(bounds: Bounds, after: int, hadEvents: bool): Result<Bounds, StreamError> {
    var cursor := if after < 0 then 0 else after;
    if bounds.earliest.Some? && bounds.earliest.value > cursor + 1 then Err(ReplayGap)
    else if bounds.latest.Some? && cursor > bounds.latest.value then Err(InvalidCursor)
    else if hadEvents && !bounds.streamExists && !bounds.sequenceExists then Err(ReplayExpired)
    else Ok(bounds)
  }

  // ---------------------------------------------------------------- what is stored

  /** The `i`th event ever published carries sequence `i + 1`. */
  predicate Numbered(history: seq<Event>) {
    forall i | 0 <= i < |history| :: history[i].sequence == i + 1
  }

  /** `entries` are the newest events, all of them while no more than `maxLength` exist. */
  predicate Retained(history: seq<Event>, entries: seq<Event>, maxLength: nat) {
    && Numbered(history)
    && |entries| <= |history| && entries == history[|history| - |entries|..]
    && (|entries| >= maxLength || |entries| == |history|)
  }

  /** The events a reader at `lo` is owed up to `hi`. */
  function Between(history: seq<Event>, lo: nat, hi: nat): seq<Event>
    requires hi <= |history| || hi <= lo
  {
    if hi <= lo then [] else history[lo..hi]
  }

  /** Entries behind the cursor, as XREAD returns them. */
  function ReadAfter(entries: seq<Event>, cursor: nat): seq<Event> {
    if entries == [] then []
    else if entries[0].sequence > cursor then entries
    else ReadAfter(entries[1..], cursor)
  }

  /** Nothing the reader at `cursor` still has to see was evicted. */
  predicate Intact(history: seq<Event>, entries: seq<Event>, cursor: nat) {
    |history| <= cursor + |entries|
  }

  lemma {:induction false} ReadAfterIsSuffix(history: seq<Event>, entries: seq<Event>, cursor: nat)
    requires Retained(history, entries, 0)
    ensures var from := if Intact(history, entries, cursor) then cursor else |history| - |entries|;
            ReadAfter(entries, cursor) == Between(history, from, |history|)
    decreases |entries|
  {
    if entries != [] {
      assert entries[0] == history[|history| - |entries|];
      if entries[0].sequence <= cursor {
        assert entries[1..] == history[|history| - |entries| + 1..];
        ReadAfterIsSuffix(history, entries[1..], cursor);
      }
    }
  }

  /** A read returns exactly the unseen events unless one of them was evicted. */
  lemma {:induction false} ReadIsComplete(history: seq<Event>, entries: seq<Event>, cursor: nat)
    requires Retained(history, entries, 0)
    ensures ReadAfter(entries, cursor) == Between(history, cursor, |history|)
        <==> Intact(history, entries, cursor)
  {
    ReadAfterIsSuffix(history, entries, cursor);
  }

  /** A gap is reported exactly when an unseen event is no longer stored. */
  lemma GapExactly(history: seq<Event>, entries: seq<Event>, maxLength: nat, after: int, hadEvents: bool)
    requires Retained(history, entries, maxLength) && maxLength >= 1
    ensures ValidateCursor(BoundsOf(entries, history != []), after, hadEvents) == Err(ReplayGap)
        <==> exists e :: e in history && e.sequence > after && e !in entries
  {
    var evicted := |history| - |entries|;
    if entries != [] && entries[0].sequence > (if after < 0 then 0 else after) + 1 {
      var e := history[evicted - 1];
      forall i | 0 <= i < |entries| ensures entries[i] != e {
        assert entries[i] == history[evicted + i];
      }
      assert e in history && e.sequence > after && e !in entries;
    } else {
      if entries != [] {
        assert entries[0] == history[evicted];
      }
      forall e | e in history && e.sequence > after ensures e in entries {
        var i :| 0 <= i < |history| && history[i] == e;
        assert entries[i - evicted] == e;
      }
    }
  }

  /** A reader that is at most `maxLength` events behind never meets a gap. */
  lemma NoGapWithinLimit(history: seq<Event>, entries: seq<Event>, maxLength: nat, after: nat, hadEvents: bool)
    requires Retained(history, entries, maxLength)
    requires |history| <= after + maxLength
    ensures Intact(history, entries, after)
    ensures ValidateCursor(BoundsOf(entries, history != []), after, hadEvents) != Err(ReplayGap)
  {
    if entries != [] {
      assert entries[0] == history[|history| - |entries|];
    }
  }

  /**
   Expiry is reported exactly for an execution that had events and has neither key left, although each of the two
   flags alone is wrong when both keys exist.
   */
  lemma ExpiredExactly(entries: seq<Event>, sequenceKey: bool, after: int, hadEvents: bool)
    ensures ValidateCursor(BoundsOf(entries, sequenceKey), after, hadEvents) == Err(ReplayExpired)
        <==> hadEvents && entries == [] && !sequenceKey
    ensures entries != [] && sequenceKey ==> !BoundsOf(entries, sequenceKey).streamExists
  {
  }

  /** A cursor is invalid exactly when it is ahead of a stream that has events. */
  lemma InvalidCursorExactly(history: seq<Event>, entries: seq<Event>, maxLength: nat, after: int, hadEvents: bool)
    requires Retained(history, entries, maxLength) && maxLength >= 1
    ensures ValidateCursor(BoundsOf(entries, history != []), after, hadEvents) == Err(InvalidCursor)
        <==> history != [] && after > |history|
  {
    if entries != [] {
      assert entries[0] == history[|history| - |entries|];
      assert entries[|entries| - 1] == history[|history| - 1];
    }
  }

  // ---------------------------------------------------------------- the stream itself

  /** One event to publish; `kept` is how many entries Redis leaves when it trims approximately. */
  datatype Publication = Publication(kind: string, payload: string, kept: nat)

  class ExecutionStream {
    const maxLength: nat
    var counter: nat
    var entries: seq<Event>
    ghost var history: seq<Event>

    ghost predicate Valid()
      reads this
    {
      maxLength >= 1 && counter == |history| && Retained(history, entries, maxLength)
    }

    constructor (maxLength: int)
      ensures Valid() && history == [] && this.maxLength == if maxLength < 1 then 1 else maxLength
    {
      this.maxLength := if maxLength < 1 then 1 else maxLength;
      counter, entries, history := 0, [], [];
    }

    /** XADD MAXLEN ~ and SET in one script: at least `maxLength` entries survive the trimming. */
    method Publish(event: Publication) returns (sequence: nat)
      requires Valid()
      modifies this
      ensures Valid()
      ensures sequence == counter == old(counter) + 1
      ensures history == old(history) + [Event(sequence, event.kind, event.payload)]
    {
      sequence := counter + 1;
      entries := entries + [Event(sequence, event.kind, event.payload)];
      history := history + [Event(sequence, event.kind, event.payload)];
      var keep := if event.kept < maxLength then maxLength else event.kept;
      if |entries| > keep {
        entries := entries[|entries| - keep..];
      }
      counter := sequence;
    }

    method PublishAll(events: seq<Publication>)
      requires Valid()
      modifies this
      ensures Valid() && counter == old(counter) + |events|
      ensures old(history) <= history
      ensures events == [] ==> entries == old(entries)
    {
      for i := 0 to |events|
        invariant Valid() && counter == old(counter) + i && old(history) <= history
        invariant i == 0 ==> entries == old(entries)
      {
        var _ := Publish(events[i]);
      }
    }
  }

  // ---------------------------------------------------------------- replaying

  /**
   One turn of the replay loop: whether the row (or Redis) reports degraded streaming, whether the
   execution had ended, whether it ever had an event, and what is published before the cursor is
   validated and between that and the XREAD.
   */
  datatype Round = Round(degraded: bool, ended: bool, hadEvents: bool,
                         before: seq<Publication>, between: seq<Publication>)

  datatype Outcome = Open | Ended | Degraded | Failed(error: StreamError)

  /** Events of the history in order, each at most once, all behind the cursor `lo`. */
  ghost predicate OrderedFrom(history: seq<Event>, delivered: seq<Event>, lo: nat, hi: nat) {
    && (forall i | 0 <= i < |delivered| :: lo < delivered[i].sequence <= hi && delivered[i] in history)
    && (forall i, j | 0 <= i < j < |delivered| :: delivered[i].sequence < delivered[j].sequence)
  }

  function CursorAfter(rows: seq<Event>, from: nat): nat {
    if rows == [] then from else rows[|rows| - 1].sequence
  }

  /** The inner loop: rows at or before the cursor are skipped. */
  method Deliver(rows: seq<Event>, from: nat, ghost history: seq<Event>)
    returns (delivered: seq<Event>, cursor: nat)
    requires OrderedFrom(history, rows, from, CursorAfter(rows, from))
    ensures delivered == rows && cursor == CursorAfter(rows, from)
  {
    delivered, cursor := [], from;
    for i := 0 to |rows|
      invariant delivered == rows[..i]
      invariant cursor == CursorAfter(rows[..i], from)
    {
      if rows[i].sequence > cursor {
        cursor := rows[i].sequence;
        delivered := delivered + [rows[i]];
      }
    }
    assert rows[..|rows|] == rows;
  }

  /** A final stretch of the history is in order, and its end is the new cursor. */
  lemma SuffixIsOrdered(history: seq<Event>, rows: seq<Event>, lo: nat, from: nat)
    requires Numbered(history) && from <= lo && rows == Between(history, lo, |history|)
    ensures OrderedFrom(history, rows, from, CursorAfter(rows, from))
    ensures CursorAfter(rows, from) == if rows == [] then from else |history|
    ensures rows == [] <==> |history| <= lo
  {
    assert forall i | 0 <= i < |rows| :: rows[i] == history[lo + i];
  }

  /** The rows of one XREAD: newer than the cursor, in order, up to the newest event. */
  lemma {:induction false} RowsOf(history: seq<Event>, entries: seq<Event>, maxLength: nat, from: nat)
    requires Retained(history, entries, maxLength) && maxLength >= 1
    ensures var rows := ReadAfter(entries, from);
            var next := CursorAfter(rows, from);
            && from <= next && |history| <= next && (next == from || next == |history|)
            && OrderedFrom(history, rows, from, next)
            && (if Intact(history, entries, from) then rows == Between(history, from, next) else |rows| < next - from)
    ensures |history| <= from + maxLength ==> Intact(history, entries, from)
  {
    hide OrderedFrom, CursorAfter, ReadAfter, Numbered;
    ReadAfterIsSuffix(history, entries, from);
    var lo := if Intact(history, entries, from) then from else |history| - |entries|;
    SuffixIsOrdered(history, ReadAfter(entries, from), lo, from);
  }

  lemma OrderedExtends(history: seq<Event>, delivered: seq<Event>, rows: seq<Event>, lo: nat, mid: nat, hi: nat)
    requires lo <= mid <= hi && OrderedFrom(history, delivered, lo, mid) && OrderedFrom(history, rows, mid, hi)
    ensures OrderedFrom(history, delivered + rows, lo, hi)
  {
    var all := delivered + rows;
    assert forall i | 0 <= i < |delivered| :: all[i] == delivered[i];
    assert forall i | |delivered| <= i < |all| :: all[i] == rows[i - |delivered|];
  }

  /** More history, or a later end, keeps what was delivered in order. */
  lemma OrderedKeeps(history: seq<Event>, longer: seq<Event>, delivered: seq<Event>, lo: nat, hi: nat)
    requires history <= longer && OrderedFrom(history, delivered, lo, hi)
    ensures OrderedFrom(longer, delivered, lo, hi)
  {
    forall e | e in history ensures e in longer {
      var i :| 0 <= i < |history| && history[i] == e;
      assert longer[i] == e;
    }
  }

  // ---------------------------------------------------------------- what the reads saw

  /** A read at `cursor` while `newest` is the newest event. */
  datatype Read = Read(cursor: nat, newest: nat)

  /** Where the reads leave the cursor. */
  function CursorAt(trace: seq<Read>, from: nat): nat {
    if trace == [] then from
    else
      var last := trace[|trace| - 1];
      if last.newest > last.cursor then last.newest else last.cursor
  }

  /** Every read starts where the one before ended. */
  predicate Linked(trace: seq<Read>, from: nat) {
    forall i | 0 <= i < |trace| :: trace[i].cursor == CursorAt(trace[..i], from) && from <= trace[i].cursor
  }

  /** The stream only grew, from `low` events to `high`. */
  predicate Growing(trace: seq<Read>, low: nat, high: nat) {
    && low <= high
    && (forall i | 0 <= i < |trace| :: low <= trace[i].newest <= high)
    && forall i, j | 0 <= i < j < |trace| :: trace[i].newest <= trace[j].newest
  }

  predicate Trace(trace: seq<Read>, from: nat, low: nat, high: nat) {
    Linked(trace, from) && Growing(trace, low, high)
  }

  /** At no read more than `maxLength` events were unseen. */
  predicate KeepsUp(trace: seq<Read>, maxLength: nat) {
    forall r | r in trace :: r.newest <= r.cursor + maxLength
  }

  lemma CursorAppend(trace: seq<Read>, more: seq<Read>, from: nat)
    ensures CursorAt(trace + more, from) == CursorAt(more, CursorAt(trace, from))
  {
    if more == [] {
      assert trace + more == trace;
    }
  }

  lemma CursorGrows(trace: seq<Read>, from: nat)
    requires Linked(trace, from)
    ensures from <= CursorAt(trace, from)
  {
  }

  lemma LinkedAppend(trace: seq<Read>, more: seq<Read>, from: nat)
    requires Linked(trace, from) && Linked(more, CursorAt(trace, from))
    ensures Linked(trace + more, from)
  {
    CursorGrows(trace, from);
    hide CursorAt;
    var all := trace + more;
    forall i | 0 <= i < |all| ensures all[i].cursor == CursorAt(all[..i], from) && from <= all[i].cursor {
      if i < |trace| {
        assert all[..i] == trace[..i];
      } else {
        assert all[..i] == trace + more[..i - |trace|] && all[i] == more[i - |trace|];
        CursorAppend(trace, more[..i - |trace|], from);
      }
    }
  }

  lemma GrowingAppend(trace: seq<Read>, more: seq<Read>, low: nat, mid: nat, high: nat)
    requires Growing(trace, low, mid) && Growing(more, mid, high)
    ensures Growing(trace + more, low, high)
  {
    var all := trace + more;
    assert forall i | 0 <= i < |all| :: all[i] == if i < |trace| then trace[i] else more[i - |trace|];
  }

  lemma KeepsUpAppend(trace: seq<Read>, more: seq<Read>, maxLength: nat)
    ensures KeepsUp(trace + more, maxLength) <==> KeepsUp(trace, maxLength) && KeepsUp(more, maxLength)
  {
    assert forall r :: r in trace + more <==> r in trace || r in more;
  }

  lemma TraceAppend(trace: seq<Read>, more: seq<Read>, from: nat, low: nat, mid: nat, high: nat)
    requires Trace(trace, from, low, mid) && Trace(more, CursorAt(trace, from), mid, high)
    ensures Trace(trace + more, from, low, high)
    ensures CursorAt(trace + more, from) == CursorAt(more, CursorAt(trace, from))
    ensures forall m :: KeepsUp(trace + more, m) <==> KeepsUp(trace, m) && KeepsUp(more, m)
  {
    hide Linked, Growing, KeepsUp, CursorAt;
    CursorAppend(trace, more, from);
    LinkedAppend(trace, more, from);
    GrowingAppend(trace, more, low, mid, high);
    forall m ensures KeepsUp(trace + more, m) <==> KeepsUp(trace, m) && KeepsUp(more, m) {
      KeepsUpAppend(trace, more, m);
    }
  }

  /** How many events the rounds publish. */
  function Published(rounds: seq<Round>): nat {
    if rounds == [] then 0
    else
      var last := rounds[|rounds| - 1];
      Published(rounds[..|rounds| - 1]) + |last.before| + |last.between|
  }

  /**
   One turn of replay_execution_events. `intact` says that the XREAD still found everything the
   reader had not seen; it can fail only when events are published after the cursor was validated.
   */
  method ReplayRound(stream: ExecutionStream, from: nat, round: Round)
    returns (delivered: seq<Event>, cursor: nat, outcome: Outcome, ghost intact: bool, ghost trace: seq<Read>)
    requires stream.Valid()
    modifies stream
    ensures stream.Valid() && old(stream.history) <= stream.history
    ensures trace == [] || trace == [Read(from, |stream.history|)]
    ensures trace == [] <==> outcome == Degraded || outcome.Failed?
    ensures trace != [] ==> |stream.history| == |old(stream.history)| + |round.before| + |round.between|
    ensures cursor == CursorAt(trace, from)
    ensures OrderedFrom(stream.history, delivered, from, cursor)
    ensures from <= cursor && (cursor == from || cursor == |stream.history|)
    ensures if intact then delivered == Between(stream.history, from, cursor) else |delivered| < cursor - from
    ensures round.between == [] || KeepsUp(trace, stream.maxLength) ==> intact
    ensures outcome == Degraded <==> round.degraded
    ensures !round.degraded ==>
              var seen := |old(stream.history)| + |round.before|;
              && (outcome == Failed(InvalidCursor) <==> 0 < seen < from)
              && (outcome == Failed(ReplayExpired) <==> round.hadEvents && seen == 0)
              && (outcome == Failed(ReplayGap) ==> seen > from + stream.maxLength)
    ensures outcome.Failed? ==> cursor == from && |stream.history| == |old(stream.history)| + |round.before|
    ensures outcome == Failed(ReplayGap) ==> !Intact(stream.history, stream.entries, from)
    ensures trace != [] && round.between == [] ==> Intact(stream.history, stream.entries, from)
    ensures outcome == Ended <==> trace != [] && round.ended
    ensures trace != [] ==> |stream.history| <= cursor
  {
    hide BoundsOf, Intact, Retained, OrderedFrom, Between, ReadAfter, CursorAfter, ValidateCursor;
    NothingDelivered(stream.history, from);
    delivered, cursor, intact, trace := [], from, true, [];
    if round.degraded {
      outcome := Degraded;
      return;
    }
    stream.PublishAll(round.before);
    NothingDelivered(stream.history, from);
    var bounds := ValidateCursor(BoundsOf(stream.entries, stream.counter > 0), from, round.hadEvents);
    Validated(stream.history, stream.entries, stream.maxLength, from, round.hadEvents);
    if bounds.Err? {
      outcome := Failed(bounds.error);
      return;
    }
    ghost var seen := stream.history;
    stream.PublishAll(round.between);
    assert round.between == [] ==> stream.history == seen;
    var rows := ReadAfter(stream.entries, from);
    RowsOf(stream.history, stream.entries, stream.maxLength, from);
    delivered, cursor := Deliver(rows, from, stream.history);
    outcome := if round.ended then Ended else Open;
    trace := [Read(from, |stream.history|)];
    intact := Intact(stream.history, stream.entries, from);
  }

  /** What passing, or failing, the validation says about the store. */
  lemma Validated(history: seq<Event>, entries: seq<Event>, maxLength: nat, cursor: nat, hadEvents: bool)
    requires Retained(history, entries, maxLength) && maxLength >= 1
    ensures var r := ValidateCursor(BoundsOf(entries, |history| > 0), cursor, hadEvents);
            match r
            case Ok(_) => Intact(history, entries, cursor) && (cursor <= |history| || history == [])
                          && !(hadEvents && history == [])
            case Err(ReplayGap) => !Intact(history, entries, cursor) && |history| > cursor + maxLength
            case Err(InvalidCursor) => 0 < |history| < cursor
            case Err(ReplayExpired) => hadEvents && history == []
  {
    if entries != [] {
      assert entries[0] == history[|history| - |entries|];
      assert entries[|entries| - 1] == history[|history| - 1];
    }
  }

  lemma BetweenGrows(history: seq<Event>, longer: seq<Event>, lo: nat, mid: nat, hi: nat)
    requires history <= longer && lo <= mid <= hi
    requires mid <= |history| || mid == lo
    requires hi <= |longer| || hi == mid
    ensures Between(longer, lo, hi) == Between(history, lo, mid) + Between(longer, mid, hi)
    ensures |Between(longer, mid, hi)| == hi - mid
  {
  }

  /**
   A replay request: it goes on until the run has ended, the stream fails, or the client hangs up. It delivers
   everything up to its cursor if no read was more than `maxLength` events behind the newest one then.
   */
  method Replay(stream: ExecutionStream, from: nat, rounds: seq<Round>)
    returns (delivered: seq<Event>, cursor: nat, outcome: Outcome, ghost intact: bool, ghost trace: seq<Read>)
    requires stream.Valid()
    modifies stream
    ensures stream.Valid() && old(stream.history) <= stream.history
    ensures Trace(trace, from, |old(stream.history)|, |stream.history|) && cursor == CursorAt(trace, from)
    ensures SeesPublished(trace, |old(stream.history)|, rounds)
    ensures OrderedFrom(stream.history, delivered, from, cursor)
    ensures from <= cursor && (cursor <= |stream.history| || cursor == from)
    ensures if intact then delivered == Between(stream.history, from, cursor) else |delivered| < cursor - from
    ensures ReadsWhatItValidated(rounds) || KeepsUp(trace, stream.maxLength) ==> intact
    ensures outcome == Failed(ReplayGap) ==> |stream.history| > cursor + stream.maxLength
    ensures outcome == Failed(InvalidCursor) ==> 0 < |stream.history| < cursor
    ensures outcome == Failed(ReplayExpired) ==> stream.history == []
    ensures StopsBy(rounds, |trace|, outcome)
    ensures outcome == Ended ==> |stream.history| <= cursor
  {
    hide OrderedFrom, Between, Trace, KeepsUp, CursorAt, Published, ReadsWhatItValidated, StopsBy, Numbered, Retained;
    hide Intact, SeesPublished;
    delivered, cursor, outcome, intact, trace := [], from, Open, true, [];
    NothingDelivered(stream.history, from);
    NothingRead(from, |stream.history|);
    PublishedNone(rounds);
    StopsNever(rounds);
    SeesNothing(|stream.history|, rounds);
    for i := 0 to |rounds|
      invariant stream.Valid() && old(stream.history) <= stream.history
      invariant Trace(trace, from, |old(stream.history)|, |stream.history|) && cursor == CursorAt(trace, from)
      invariant |trace| == i && |stream.history| == |old(stream.history)| + Published(rounds[..i])
      invariant SeesPublished(trace, |old(stream.history)|, rounds)
      invariant OrderedFrom(stream.history, delivered, from, cursor)
      invariant from <= cursor && (cursor <= |stream.history| || cursor == from)
      invariant if intact then delivered == Between(stream.history, from, cursor) else |delivered| < cursor - from
      invariant ReadsWhatItValidated(rounds) || KeepsUp(trace, stream.maxLength) ==> intact
      invariant outcome == Open && StopsBy(rounds[..i], i, Open)
      invariant i > 0 ==> |stream.history| <= cursor
    {
      ghost var before := stream.history;
      var rows, next, o, ok, read := ReplayRound(stream, cursor, rounds[i]);
      AnotherRound(before, stream.history, delivered, rows, from, cursor, next);
      AnotherRead(trace, read, from, |old(stream.history)|, |before|, |stream.history|);
      PublishedMore(rounds, i);
      SeesMore(trace, read, |old(stream.history)|, rounds);
      StopsNext(rounds, i, o, |read|);
      ValidatedEach(rounds, i);
      delivered, cursor, outcome, intact, trace := delivered + rows, next, o, intact && ok, trace + read;
      if outcome != Open {
        return;
      }
    }
  }

  /** After `count` reads the request ended with this outcome: at the first round that gives it a reason to. */
  predicate StopsBy(rounds: seq<Round>, count: nat, outcome: Outcome) {
    && count <= |rounds|
    && (forall k | 0 <= k < count - 1 :: !rounds[k].ended)
    && (forall k | 0 <= k < count :: !rounds[k].degraded)
    && match outcome
       case Open => count == |rounds| && (count > 0 ==> !rounds[count - 1].ended)
       case Ended => count > 0 && rounds[count - 1].ended
       case Degraded => count < |rounds| && rounds[count].degraded && (count > 0 ==> !rounds[count - 1].ended)
       case Failed(error) =>
         && count < |rounds| && !rounds[count].degraded && (count > 0 ==> !rounds[count - 1].ended)
         && (error.ReplayExpired? ==> rounds[count].hadEvents)
  }

  lemma StopsNext(rounds: seq<Round>, i: nat, outcome: Outcome, read: nat)
    requires i < |rounds| && StopsBy(rounds[..i], i, Open) && read <= 1
    requires read == 0 <==> outcome == Degraded || outcome.Failed?
    requires outcome == Degraded <==> rounds[i].degraded
    requires outcome == Ended <==> read == 1 && rounds[i].ended
    requires outcome == Failed(ReplayExpired) ==> rounds[i].hadEvents
    ensures if outcome == Open then StopsBy(rounds[..i + 1], i + 1, Open) else StopsBy(rounds, i + read, outcome)
  {
    assert forall k | 0 <= k < i :: rounds[..i][k] == rounds[k];
    assert forall k | 0 <= k < i + 1 :: rounds[..i + 1][k] == rounds[k];
  }

  lemma StopsNever(rounds: seq<Round>)
    ensures StopsBy(rounds[..0], 0, Open) && rounds[..|rounds|] == rounds
  {
  }

  /** Read `i` sees all that was published up to round `i`. */
  predicate SeesPublished(trace: seq<Read>, start: nat, rounds: seq<Round>) {
    |trace| <= |rounds| && forall i | 0 <= i < |trace| :: trace[i].newest == start + Published(rounds[..i + 1])
  }

  lemma SeesMore(trace: seq<Read>, read: seq<Read>, start: nat, rounds: seq<Round>)
    requires SeesPublished(trace, start, rounds) && |trace| < |rounds| && |read| <= 1
    requires read != [] ==> read[0].newest == start + Published(rounds[..|trace| + 1])
    ensures SeesPublished(trace + read, start, rounds)
  {
    hide Published;
  }

  lemma SeesNothing(start: nat, rounds: seq<Round>)
    ensures SeesPublished([], start, rounds)
  {
  }

  lemma PublishedNone(rounds: seq<Round>)
    ensures Published(rounds[..0]) == 0
  {
  }

  lemma PublishedMore(rounds: seq<Round>, i: nat)
    requires i < |rounds|
    ensures Published(rounds[..i + 1]) == Published(rounds[..i]) + |rounds[i].before| + |rounds[i].between|
  {
    assert rounds[..i + 1][..i] == rounds[..i];
  }

  lemma ValidatedEach(rounds: seq<Round>, i: nat)
    requires i < |rounds|
    ensures ReadsWhatItValidated(rounds) ==> rounds[i].between == []
  {
  }

  lemma NothingRead(from: nat, newest: nat)
    ensures Trace([], from, newest, newest) && CursorAt([], from) == from && forall m :: KeepsUp([], m)
  {
  }

  /** A round reads at most once, behind whatever was published until then. */
  lemma AnotherRead(trace: seq<Read>, read: seq<Read>, from: nat, low: nat, mid: nat, high: nat)
    requires Trace(trace, from, low, mid) && mid <= high
    requires read == [] || read == [Read(CursorAt(trace, from), high)]
    ensures Trace(trace + read, from, low, high)
    ensures CursorAt(trace + read, from) == CursorAt(read, CursorAt(trace, from))
    ensures forall m :: KeepsUp(trace + read, m) <==> KeepsUp(trace, m) && KeepsUp(read, m)
  {
    assert Linked(read, CursorAt(trace, from)) && Growing(read, mid, high) by {
      hide Trace;
      assert read != [] ==> read[..0] == [];
    }
    hide Linked, Growing, KeepsUp, CursorAt;
    TraceAppend(trace, read, from, low, mid, high);
  }

  lemma NothingDelivered(history: seq<Event>, from: nat)
    ensures OrderedFrom(history, [], from, from) && Between(history, from, from) == []
  {
  }

  lemma AnotherRound(history: seq<Event>, longer: seq<Event>, delivered: seq<Event>, rows: seq<Event>,
                     lo: nat, mid: nat, hi: nat)
    requires history <= longer && lo <= mid <= hi
    requires mid <= |history| || mid == lo
    requires hi <= |longer| || hi == mid
    requires OrderedFrom(history, delivered, lo, mid) && OrderedFrom(longer, rows, mid, hi)
    ensures OrderedFrom(longer, delivered + rows, lo, hi)
    ensures Between(longer, lo, hi) == Between(history, lo, mid) + Between(longer, mid, hi)
    ensures |Between(history, lo, mid)| == mid - lo && |Between(longer, mid, hi)| == hi - mid
  {
    hide OrderedFrom;
    BetweenGrows(history, history, lo, lo, mid);
    OrderedKeeps(history, longer, delivered, lo, mid);
    OrderedExtends(longer, delivered, rows, lo, mid, hi);
    BetweenGrows(history, longer, lo, mid, hi);
  }

  /**
   A client that reconnects with the last sequence it received gets the consecutive run of events behind its
   first cursor, if no event is published between a validation and its read, or if no read of any request was
   more than `maxLength` events behind. A request reads once a round until it ends.
   */
  method ReplayAcrossReconnects(stream: ExecutionStream, from: nat, requests: seq<seq<Round>>)
    returns (delivered: seq<Event>, cursor: nat, ghost trace: seq<Read>)
    requires stream.Valid()
    modifies stream
    ensures stream.Valid() && old(stream.history) <= stream.history
    ensures Trace(trace, from, |old(stream.history)|, |stream.history|) && cursor == CursorAt(trace, from)
    ensures |trace| <= Rounds(requests)
    ensures from <= cursor && (cursor <= |stream.history| || cursor == from)
    ensures OrderedFrom(stream.history, delivered, from, cursor)
    ensures (forall rounds | rounds in requests :: ReadsWhatItValidated(rounds)) || KeepsUp(trace, stream.maxLength)
        ==> delivered == Between(stream.history, from, cursor)
  {
    hide OrderedFrom, Between, Trace, KeepsUp, CursorAt, ReadsWhatItValidated;
    delivered, cursor, trace := [], from, [];
    NothingDelivered(stream.history, from);
    NothingRead(from, |stream.history|);
    for i := 0 to |requests|
      invariant stream.Valid() && old(stream.history) <= stream.history
      invariant Trace(trace, from, |old(stream.history)|, |stream.history|) && cursor == CursorAt(trace, from)
      invariant |trace| <= Rounds(requests[..i])
      invariant from <= cursor && (cursor <= |stream.history| || cursor == from)
      invariant OrderedFrom(stream.history, delivered, from, cursor)
      invariant (forall rounds | rounds in requests :: ReadsWhatItValidated(rounds))
                || KeepsUp(trace, stream.maxLength)
            ==> delivered == Between(stream.history, from, cursor)
    {
      ghost var before := stream.history;
      var rows, next, _, ok, more := Replay(stream, cursor, requests[i]);
      assert requests[i] in requests && requests[..i + 1][..i] == requests[..i];
      AnotherRound(before, stream.history, delivered, rows, from, cursor, next);
      TraceAppend(trace, more, from, |old(stream.history)|, |before|, |stream.history|);
      delivered, cursor, trace := delivered + rows, next, trace + more;
    }
    assert requests[..|requests|] == requests;
  }

  function Rounds(requests: seq<seq<Round>>): nat {
    if requests == [] then 0 else Rounds(requests[..|requests| - 1]) + |requests[|requests| - 1]|
  }

  /** Nothing is published between a validation and its read. */
  predicate ReadsWhatItValidated(rounds: seq<Round>) {
    forall r | r in rounds :: r.between == []
  }

  /**
   Why the validation and the read have to see the same stream: for every retention, and however much more than
   `maxLength` the trimming keeps, a burst that is longer pushes out events that a reader whose cursor was
   just validated has not seen, and its read skips them without notice.
   */
  lemma {:induction false} SplitReadCanSkip(
    history: seq<Event>, burst: seq<Event>, maxLength: nat, slack: nat, cursor: nat)
    requires Numbered(history + burst) && maxLength >= 1 && cursor <= |history|
    requires |burst| > maxLength + slack
    ensures var all := history + burst;
            var entries := all[|all| - maxLength - slack..];
            && Retained(history, history, maxLength)
            && (history != [] ==> ValidateCursor(BoundsOf(history, true), cursor, true).Ok?)
            && Retained(all, entries, maxLength)
            && |ReadAfter(entries, cursor)| < |Between(all, cursor, |all|)|
            && exists e :: e in all && e.sequence > cursor && e !in ReadAfter(entries, cursor)
  {
    var all := history + burst;
    var entries := all[|all| - maxLength - slack..];
    assert forall i | 0 <= i < |history| :: history[i] == all[i];
    assert history[|history| - |history|..] == history;
    ReadAfterIsSuffix(all, entries, cursor);
    var e := all[|history|];
    assert e in all && e.sequence == |history| + 1;
    assert forall i | 0 <= i < |entries| :: entries[i] == all[|all| - maxLength - slack + i];
  }
}
