/** The rolling summary of a conversation: how summaries merge, and which messages each refresh folds in. */
module Summary {
  import opened MessageOrder
  import opened Sequences
  import opened Wrappers
  import opened Text

  const MAX_SUMMARY_CHARS := 2400
  const EARLY_BUDGET := 1200
  const RECENT_BUDGET := 1195

  function Take(s: string, count: nat): string {
    if |s| <= count then s else s[..count]
  }

  // ---------------------------------------------------------------- merging

  /** Both ends of a text that is too long. */
  function Shorten(combined: string): string
    requires |combined| > MAX_SUMMARY_CHARS
  {
    TrimEnd(combined[..EARLY_BUDGET], IsPySpace)
    + ("\n...\n" + TrimStart(combined[|combined| - RECENT_BUDGET..], IsPySpace))
  }

  /** merge_summaries. */
  function Merge(previous: string, addition: string): string {
    var p, a := Trim(previous, IsPySpace), Trim(addition, IsPySpace);
    if p == "" then Take(a, MAX_SUMMARY_CHARS)
    else if a == "" then Take(p, MAX_SUMMARY_CHARS)
    else
      var combined := p + ("\n" + a);
      if |combined| <= MAX_SUMMARY_CHARS then combined else Shorten(combined)
  }

  function MergeAll(summary: string, additions: seq<string>): string {
    if additions == [] then summary
    else Merge(MergeAll(summary, additions[..|additions| - 1]), additions[|additions| - 1])
  }

  lemma MergeIsBounded(previous: string, addition: string)
    ensures |Merge(previous, addition)| <= 2400
  {
    hide TrimStart, TrimEnd, Trim;
  }

  /** The durable part of a summary: its first 1200 characters without trailing space. */
  function Early(summary: string): string {
    TrimEnd(Take(summary, EARLY_BUDGET), IsPySpace)
  }

  /** `part` is a durable beginning of the summary. */
  predicate Durable(part: string, summary: string) {
    && part <= summary && |part| <= EARLY_BUDGET
    && (part != "" ==> !IsPySpace(part[0]) && !IsPySpace(part[|part| - 1]))
  }

  lemma {:induction false} TrimEndKeeps(part: string, s: string)
    requires part <= s && part != "" && !IsPySpace(part[|part| - 1])
    ensures part <= TrimEnd(s, IsPySpace)
  {
    hide IsPySpace;
    if IsPySpace(s[|s| - 1]) {
      assert s[..|s| - 1][..|part|] == s[..|part|] || |part| == |s|;
      TrimEndKeeps(part, s[..|s| - 1]);
    }
  }

  lemma TrimKeeps(part: string, s: string)
    requires Durable(part, s)
    ensures Durable(part, Trim(s, IsPySpace))
  {
    hide IsPySpace, TrimStart, TrimEnd;
    if part != "" {
      assert s[0] == part[0];
      TrimEndKeeps(part, s);
    }
  }

  lemma ExtendKeeps(part: string, s: string, more: string)
    requires Durable(part, s)
    ensures Durable(part, s + more)
  {
    hide IsPySpace;
    assert (s + more)[..|part|] == part;
  }

  lemma TakeKeeps(part: string, s: string, count: nat)
    requires Durable(part, s) && count >= EARLY_BUDGET
    ensures Durable(part, Take(s, count))
  {
    hide IsPySpace;
    assert |s| > count ==> s[..count][..|part|] == s[..|part|];
  }

  lemma ShortenKeeps(part: string, combined: string)
    requires Durable(part, combined) && |combined| > MAX_SUMMARY_CHARS
    ensures Durable(part, Shorten(combined))
  {
    hide IsPySpace, TrimStart, TrimEnd, Durable;
    CutKeeps(part, combined);
    ExtendKeeps(part, TrimEnd(combined[..EARLY_BUDGET], IsPySpace),
                "\n...\n" + TrimStart(combined[|combined| - RECENT_BUDGET..], IsPySpace));
  }

  /** A durable beginning survives a merge. */
  lemma MergeKeeps(part: string, previous: string, addition: string)
    requires Durable(part, previous)
    ensures Durable(part, Merge(previous, addition))
  {
    hide IsPySpace, Trim, Take, Shorten, Durable;
    var p, a := Trim(previous, IsPySpace), Trim(addition, IsPySpace);
    TrimKeeps(part, previous);
    if p == "" {
      EmptyIsDurable(part, Take(a, MAX_SUMMARY_CHARS));
    } else if a == "" {
      TakeKeeps(part, p, MAX_SUMMARY_CHARS);
    } else {
      var combined := p + ("\n" + a);
      ExtendKeeps(part, p, "\n" + a);
      if |combined| > MAX_SUMMARY_CHARS {
        ShortenKeeps(part, combined);
      }
    }
  }

  lemma EmptyIsDurable(part: string, s: string)
    requires Durable(part, "")
    ensures Durable(part, s)
  {
  }

  lemma CutKeeps(part: string, s: string)
    requires Durable(part, s) && |s| >= EARLY_BUDGET
    ensures Durable(part, TrimEnd(s[..EARLY_BUDGET], IsPySpace))
  {
    hide IsPySpace, TrimEnd;
    assert s[..EARLY_BUDGET][..|part|] == part;
    if part != "" {
      TrimEndKeeps(part, s[..EARLY_BUDGET]);
    }
  }

  /** A merge result does not start with space, so its early part is a durable beginning. */
  lemma EarlyIsDurable(summary: string)
    requires summary != "" ==> !IsPySpace(summary[0])
    ensures Durable(Early(summary), summary)
  {
    hide IsPySpace, TrimEnd;
  }

  lemma MergeStripped(previous: string, addition: string)
    ensures Merge(Trim(previous, IsPySpace), Trim(addition, IsPySpace)) == Merge(previous, addition)
  {
    hide IsPySpace, Trim, Take, Shorten;
    assert Trim(Trim(previous, IsPySpace), IsPySpace) == Trim(previous, IsPySpace) by {
      TrimmedStays(Trim(previous, IsPySpace), IsPySpace);
    }
    assert Trim(Trim(addition, IsPySpace), IsPySpace) == Trim(addition, IsPySpace) by {
      TrimmedStays(Trim(addition, IsPySpace), IsPySpace);
    }
  }

  /** A merge starts with text, and it is empty exactly when both sides are blank. */
  lemma MergeStartsSolid(previous: string, addition: string)
    ensures Merge(previous, addition) != "" ==> !IsPySpace(Merge(previous, addition)[0])
    ensures Merge(previous, addition) == "" <==> Trim(previous, IsPySpace) == "" && Trim(addition, IsPySpace) == ""
  {
    hide IsPySpace, Trim, Shorten;
    var p, a := Trim(previous, IsPySpace), Trim(addition, IsPySpace);
    if p != "" {
      MergeStripped(previous, addition);
      hide Merge, Take;
      MergeKeeps(p[..1], p, a);
    }
  }

  lemma {:induction false} MergeAllKeeps(part: string, summary: string, additions: seq<string>)
    requires Durable(part, summary)
    ensures Durable(part, MergeAll(summary, additions))
  {
    hide Merge, Durable;
    if additions != [] {
      var n := |additions| - 1;
      MergeAllKeeps(part, summary, additions[..n]);
      MergeKeeps(part, MergeAll(summary, additions[..n]), additions[n]);
    }
  }

  /** The early part of a merged summary stays its beginning for good. */
  lemma {:induction false} EarlyPartStays(previous: string, addition: string, additions: seq<string>)
    ensures var summary := Merge(previous, addition);
            Early(summary) <= MergeAll(summary, additions)
  {
    hide Merge, Early, IsPySpace;
    var summary := Merge(previous, addition);
    MergeStartsSolid(previous, addition);
    EarlyIsDurable(summary);
    MergeAllKeeps(Early(summary), summary, additions);
  }

  lemma EndsWithAppend(front: string, s: string, tail: string)
    requires EndsWith(s, tail)
    ensures EndsWith(front + s, tail)
  {
    assert (front + s)[|front + s| - |tail|..] == s[|s| - |tail|..];
  }

  lemma {:induction false} TrimStartKeepsTail(s: string, tail: string)
    requires EndsWith(s, tail) && tail != "" && !IsPySpace(tail[0])
    ensures EndsWith(TrimStart(s, IsPySpace), tail)
  {
    hide IsPySpace;
    if IsPySpace(s[0]) {
      assert s[1..][|s| - 1 - |tail|..] == s[|s| - |tail|..];
      TrimStartKeepsTail(s[1..], tail);
    }
  }

  lemma ShortenKeepsTail(combined: string, tail: string)
    requires |combined| > MAX_SUMMARY_CHARS && |tail| <= RECENT_BUDGET
    requires EndsWith(combined, tail) && tail != "" && !IsPySpace(tail[0])
    ensures EndsWith(Shorten(combined), tail)
  {
    hide IsPySpace, TrimStart, TrimEnd;
    var recent := combined[|combined| - RECENT_BUDGET..];
    assert EndsWith(recent, tail) by {
      assert recent[|recent| - |tail|..] == combined[|combined| - |tail|..];
    }
    hide EndsWith;
    TrimStartKeepsTail(recent, tail);
    var kept := TrimStart(recent, IsPySpace);
    EndsWithAppend("\n...\n", kept, tail);
    EndsWithAppend(TrimEnd(combined[..EARLY_BUDGET], IsPySpace), "\n...\n" + kept, tail);
  }

  /** What was added last is still there in full if it is not longer than the recent part. */
  lemma RecentTextStays(previous: string, addition: string)
    requires 1 <= |Trim(addition, IsPySpace)| <= 1195
    ensures EndsWith(Merge(previous, addition), Trim(addition, IsPySpace))
  {
    hide IsPySpace, Trim, Shorten;
    var p, a := Trim(previous, IsPySpace), Trim(addition, IsPySpace);
    assert EndsWith(a, a);
    if p != "" {
      hide EndsWith;
      EndsWithAppend("\n", a, a);
      EndsWithAppend(p, "\n" + a, a);
      if |p + ("\n" + a)| > MAX_SUMMARY_CHARS {
        ShortenKeepsTail(p + ("\n" + a), a);
      }
    }
  }

  /** What fits is kept whole, one line after the other; a blank side adds nothing. */
  lemma ShortMergeIsWhole(previous: string, addition: string)
    ensures var p, a := Trim(previous, IsPySpace), Trim(addition, IsPySpace);
            && (p != "" && a != "" && |p| + 1 + |a| <= 2400 ==> Merge(previous, addition) == p + "\n" + a)
            && (p == "" && |a| <= 2400 ==> Merge(previous, addition) == a)
            && (a == "" && |p| <= 2400 ==> Merge(previous, addition) == p)
  {
    hide Trim, Shorten;
    var p, a := Trim(previous, IsPySpace), Trim(addition, IsPySpace);
    assert p + ("\n" + a) == p + "\n" + a;
  }

  /** After any number of merges, what was added last is still there in full if it fits the recent part. */
  lemma {:induction false} LastMergeStays(summary: string, additions: seq<string>)
    requires additions != [] && 1 <= |Trim(additions[|additions| - 1], IsPySpace)| <= 1195
    ensures EndsWith(MergeAll(summary, additions), Trim(additions[|additions| - 1], IsPySpace))
  {
    hide Merge, Trim, IsPySpace, EndsWith;
    var n := |additions| - 1;
    RecentTextStays(MergeAll(summary, additions[..n]), additions[n]);
  }

  // ---------------------------------------------------------------- one batch of messages

  datatype Role = User | Assistant | System | Tool

  datatype Turn = Turn(role: Role, content: string)

  function RoleName(role: Role): Option<string> {
    match role
    case User => Some("user")
    case Assistant => Some("assistant")
    case System => Some("system")
    case Tool => None
  }

  function LinesOf(turns: seq<Turn>): seq<string> {
    if turns == [] then []
    else
      var last := turns[|turns| - 1];
      var content := Trim(last.content, IsPySpace);
      LinesOf(turns[..|turns| - 1])
      + if RoleName(last.role).Some? && content != ""
        then [RoleName(last.role).value + ": " + Take(content, 360)] else []
  }

  /** The message has a role with a name and some text. */
  predicate HasLine(turn: Turn) {
    turn.role != Tool && exists i | 0 <= i < |turn.content| :: !IsPySpace(turn.content[i])
  }

  /** The line of a message: who speaks, then at most the first 360 characters of the text. */
  predicate IsLineOf(line: string, turn: Turn) {
    var content := Trim(turn.content, IsPySpace);
    var text := if |content| <= 360 then content else content[..360];
    match turn.role
    case User => line == "user" + ": " + text
    case Assistant => line == "assistant" + ": " + text
    case System => line == "system" + ": " + text
    case Tool => false
  }

  /** `lines` are the lines of the messages at `places`, which are exactly those with a text and a named role. */
  ghost predicate LinesAt(places: seq<nat>, lines: seq<string>, turns: seq<Turn>) {
    && Rising(places) && |places| == |lines|
    && (forall i: nat :: i in places <==> i < |turns| && HasLine(turns[i]))
    && forall k | 0 <= k < |places| :: places[k] < |turns| && IsLineOf(lines[k], turns[places[k]])
  }

  lemma LinesAppend(places: seq<nat>, lines: seq<string>, turns: seq<Turn>, turn: Turn, line: string)
    requires LinesAt(places, lines, turns) && (HasLine(turn) ==> IsLineOf(line, turn))
    ensures if HasLine(turn) then LinesAt(places + [|turns|], lines + [line], turns + [turn])
            else LinesAt(places, lines, turns + [turn])
  {
    hide HasLine, IsLineOf;
    var longer := turns + [turn];
    assert forall i | 0 <= i < |turns| :: longer[i] == turns[i];
    if HasLine(turn) {
      RisingAppend(places, |turns|);
    }
    hide Rising;
  }

  lemma LineIsLine(turn: Turn)
    ensures HasLine(turn) <==> RoleName(turn.role).Some? && Trim(turn.content, IsPySpace) != ""
    ensures HasLine(turn) ==> IsLineOf(LineOf(turn), turn)
  {
    hide Trim, IsPySpace;
    BlankExactly(turn.content, IsPySpace);
  }

  /** Every message with a text and a named role has its line, in order, and nothing else has one. */
  lemma {:induction false} LinesExactly(turns: seq<Turn>) returns (places: seq<nat>)
    ensures LinesAt(places, LinesOf(turns), turns)
  {
    hide HasLine, IsLineOf, Trim, Take, IsPySpace;
    places := [];
    if turns != [] {
      var n := |turns| - 1;
      places := LinesExactly(turns[..n]);
      LineIsLine(turns[n]);
      var line := if RoleName(turns[n].role).Some? then LineOf(turns[n]) else "";
      LinesAppend(places, LinesOf(turns[..n]), turns[..n], turns[n], line);
      hide LinesAt;
      assert turns == turns[..n] + [turns[n]];
      if HasLine(turns[n]) {
        places := places + [n];
      }
    }
  }

  /** Python's `turns[-count:]`, which is everything when `count` is 0. */
  function LastTurns(turns: seq<Turn>, count: nat): seq<Turn> {
    if count == 0 then turns else Last(turns, count)
  }

  function Summarize(turns: seq<Turn>, maxItems: nat): string {
    Last(Join(LinesOf(LastTurns(turns, maxItems)), "\n"), MAX_SUMMARY_CHARS)
  }

  /** A summary holds all lines of the newest messages while they fit. */
  lemma ShortBatchIsWhole(turns: seq<Turn>, maxItems: nat)
    ensures var recent := if maxItems == 0 || |turns| <= maxItems then turns else turns[|turns| - maxItems..];
            var text := Join(LinesOf(recent), "\n");
            |text| <= 2400 ==> Summarize(turns, maxItems) == text
  {
    hide LinesOf, Join;
  }

  /** summarize_messages. */
  method SummarizeMessages(turns: seq<Turn>, maxItems: nat) returns (summary: string)
    ensures summary == Summarize(turns, maxItems)
  {
    hide Join, Trim, Take, IsPySpace;
    var lines := [];
    var recent := LastTurns(turns, maxItems);
    for i := 0 to |recent|
      invariant lines == LinesOf(recent[..i])
    {
      assert recent[..i + 1][..i] == recent[..i];
      var role := RoleName(recent[i].role);
      if role.None? {
        continue;
      }
      var content := Trim(recent[i].content, IsPySpace);
      if content != "" {
        lines := lines + [role.value + ": " + Take(content, 360)];
      }
    }
    assert recent[..|recent|] == recent;
    return Last(Join(lines, "\n"), MAX_SUMMARY_CHARS);
  }

  // ---------------------------------------------------------------- refreshing

  /** A user or assistant text message of a session. */
  type Row = Keyed<Turn>

  datatype Entry = Entry(content: string, cursor: Option<Key>)

  /** The query behind a refresh: the session's rows after the cursor. */
  function RowsAfter(history: seq<Row>, cursor: Option<Key>): seq<Row> {
    if history == [] then []
    else
      RowsAfter(history[..|history| - 1], cursor)
      + if cursor.None? || cursor.value.Before(history[|history| - 1].key) then [history[|history| - 1]] else []
  }

  /** What a row contributes; blank messages are dropped. */
  function KeptTurn(row: Row): seq<Turn> {
    var turn := row.value;
    if Trim(turn.content, IsPySpace) != "" && (turn.role == User || turn.role == Assistant)
    then [turn.(content := Trim(turn.content, IsPySpace))] else []
  }

  function TurnsOf(rows: seq<Row>): seq<Turn> {
    if rows == [] then [] else TurnsOf(rows[..|rows| - 1]) + KeptTurn(rows[|rows| - 1])
  }

  /** A message whose text goes into summaries. */
  predicate HasText(row: Row) {
    && (row.value.role == User || row.value.role == Assistant)
    && exists i | 0 <= i < |row.value.content| :: !IsPySpace(row.value.content[i])
  }

  /** `turns` are the trimmed messages of the rows at `places`, which are exactly those with text. */
  ghost predicate TurnsAt(places: seq<nat>, turns: seq<Turn>, rows: seq<Row>) {
    && Rising(places) && |places| == |turns|
    && (forall i: nat :: i in places <==> i < |rows| && HasText(rows[i]))
    && forall k | 0 <= k < |places| ::
         places[k] < |rows|
         && turns[k] == Turn(rows[places[k]].value.role, Trim(rows[places[k]].value.content, IsPySpace))
  }

  lemma TurnsAppendRow(places: seq<nat>, turns: seq<Turn>, rows: seq<Row>, row: Row)
    requires TurnsAt(places, turns, rows)
    ensures if HasText(row)
            then TurnsAt(places + [|rows|], turns + [Turn(row.value.role, Trim(row.value.content, IsPySpace))],
                         rows + [row])
            else TurnsAt(places, turns, rows + [row])
  {
    hide HasText, Trim, IsPySpace;
    var longer := rows + [row];
    assert forall i | 0 <= i < |rows| :: longer[i] == rows[i];
    if HasText(row) {
      RisingAppend(places, |rows|);
    }
    hide Rising;
  }

  /** Every user or assistant message with text is folded in, trimmed and in order, and nothing else is. */
  lemma {:induction false} TurnsExactly(rows: seq<Row>) returns (places: seq<nat>)
    ensures TurnsAt(places, TurnsOf(rows), rows)
  {
    hide Trim, IsPySpace;
    places := [];
    if rows != [] {
      var n := |rows| - 1;
      places := TurnsExactly(rows[..n]);
      BlankExactly(rows[n].value.content, IsPySpace);
      TurnsAppendRow(places, TurnsOf(rows[..n]), rows[..n], rows[n]);
      hide TurnsAt;
      assert rows == rows[..n] + [rows[n]];
      if HasText(rows[n]) {
        places := places + [n];
      } else {
        assert TurnsOf(rows[..n]) + [] == TurnsOf(rows[..n]);
      }
    }
  }

  const BATCH := 12

  function Batches(rows: seq<Row>): seq<seq<Row>>
    decreases |rows|
  {
    if rows == [] then []
    else if |rows| <= BATCH then [rows]
    else [rows[..BATCH]] + Batches(rows[BATCH..])
  }

  function Flatten(batches: seq<seq<Row>>): seq<Row> {
    if batches == [] then [] else batches[0] + Flatten(batches[1..])
  }

  /** Batches cut the rows without losing, repeating or reordering any; only the last may be short. */
  lemma {:induction false} BatchesPartition(rows: seq<Row>)
    ensures Flatten(Batches(rows)) == rows
    ensures forall b | b in Batches(rows) :: 1 <= |b| <= 12
    ensures forall i | 0 <= i < |Batches(rows)| - 1 :: |Batches(rows)[i]| == 12
    decreases |rows|
  {
    if |rows| > BATCH {
      BatchesPartition(rows[BATCH..]);
      assert Batches(rows)[1..] == Batches(rows[BATCH..]);
    }
  }

  /** The summary after folding in the rows, batch by batch. */
  function Folded(summary: string, rows: seq<Row>): string
    decreases |rows|
  {
    if rows == [] then summary
    else
      var batch := if |rows| <= BATCH then rows else rows[..BATCH];
      Folded(Merge(summary, Summarize(TurnsOf(batch), BATCH)), rows[|batch|..])
  }

  lemma {:induction false} FoldStep(summary: string, rows: seq<Row>, offset: nat, end: nat)
    requires offset < |rows| && end == if offset + BATCH < |rows| then offset + BATCH else |rows|
    ensures Folded(summary, rows[offset..])
         == Folded(Merge(summary, Summarize(TurnsOf(rows[offset..end]), BATCH)), rows[end..])
  {
    hide Merge, Summarize, TurnsOf;
    var rest := rows[offset..];
    var batch := if |rest| <= BATCH then rest else rest[..BATCH];
    assert batch == rows[offset..end] && rest[|batch|..] == rows[end..];
  }

  lemma {:induction false} FoldedNothing(summary: string, rows: seq<Row>)
    requires rows == []
    ensures Folded(summary, rows) == summary
  {
  }

  function Previous(stored: Option<Entry>): string {
    if stored.Some? then stored.value.content else ""
  }

  function Cursor(stored: Option<Entry>): Option<Key> {
    if stored.Some? then stored.value.cursor else None
  }

  /** What is stored after a refresh; a blank summary is not saved, and its cursor is not either. */
  function Refreshed(stored: Option<Entry>, history: seq<Row>): Option<Entry> {
    var rows := RowsAfter(history, Cursor(stored));
    var summary := Trim(Folded(Previous(stored), rows), IsPySpace);
    if summary == "" then stored
    else Some(Entry(summary, if rows == [] then Cursor(stored) else Some(rows[|rows| - 1].key)))
  }

  class ShortTermMemory {
    var stored: Option<Entry>

    constructor ()
      ensures stored == None
    {
      stored := None;
    }

    /** refresh_summary; `history` are the session's rows in key order. */
    method RefreshSummary(history: seq<Row>) returns (summary: string)
      modifies this
      ensures summary == Folded(Previous(old(stored)), RowsAfter(history, Cursor(old(stored))))
      ensures stored == Refreshed(old(stored), history)
    {
      hide Merge, Summarize, Trim, TurnsOf, IsPySpace, Folded;
      var cursor := Cursor(stored);
      var rows := [];
      for i := 0 to |history|
        invariant rows == RowsAfter(history[..i], cursor) && stored == old(stored)
      {
        assert history[..i + 1][..i] == history[..i];
        if cursor.None? || cursor.value.Before(history[i].key) {
          rows := rows + [history[i]];
        }
      }
      assert history[..|history|] == history;
      summary := Previous(stored);
      var offset := 0;
      assert rows[0..] == rows;
      while offset < |rows|
        invariant 0 <= offset <= |rows| && stored == old(stored)
        invariant Folded(summary, rows[offset..]) == Folded(Previous(stored), rows)
      {
        var end := if offset + BATCH < |rows| then offset + BATCH else |rows|;
        FoldStep(summary, rows, offset, end);
        var addition := SummarizeMessages(TurnsOf(rows[offset..end]), BATCH);
        summary := Merge(summary, addition);
        offset := end;
      }
      FoldedNothing(summary, rows[offset..]);
      if Trim(summary, IsPySpace) != "" {
        stored := Some(Entry(Trim(summary, IsPySpace), if rows == [] then cursor else Some(rows[|rows| - 1].key)));
      }
    }
  }

  // ---------------------------------------------------------------- over the life of a session

  datatype Action = Arrive(row: Row) | Refresh

  /** The rows of a session, its stored summary, and the rows that were folded into it. */
  datatype Session = Session(history: seq<Row>, stored: Option<Entry>, folded: seq<Row>)

  function Apply(s: Session, a: Action): Session {
    match a
    case Arrive(row) => s.(history := s.history + [row])
    case Refresh =>
      var rows := RowsAfter(s.history, Cursor(s.stored));
      var saved := Trim(Folded(Previous(s.stored), rows), IsPySpace) != "";
      s.(stored := Refreshed(s.stored, s.history), folded := if saved then s.folded + rows else s.folded)
  }

  const NEW_SESSION := Session([], None, [])

  function Run(s: Session, actions: seq<Action>): Session {
    if actions == [] then s else Apply(Run(s, actions[..|actions| - 1]), actions[|actions| - 1])
  }

  /** The cursor stands behind exactly the rows that were folded in. */
  predicate UpToCursor(s: Session) {
    && s.folded <= s.history
    && Cursor(s.stored) == if s.folded == [] then None else Some(s.folded[|s.folded| - 1].key)
  }

  lemma {:induction false} RowsAfterPrefix(history: seq<Row>, k: nat)
    requires InOrder(history) && k <= |history|
    ensures RowsAfter(history, if k == 0 then None else Some(history[k - 1].key)) == history[k..]
  {
    if history != [] {
      var n := |history| - 1;
      if k <= n {
        RowsAfterPrefix(history[..n], k);
        assert history[..n][k..] + [history[n]] == history[k..];
      } else {
        NothingAfter(history, history[n].key, n);
      }
    }
  }

  lemma {:induction false} NothingAfter(history: seq<Row>, key: Key, n: nat)
    requires forall i | 0 <= i < |history| :: !key.Before(history[i].key)
    ensures RowsAfter(history, Some(key)) == []
  {
    if history != [] {
      NothingAfter(history[..|history| - 1], key, n);
    }
  }

  lemma ApplyKeepsCursor(s: Session, a: Action)
    requires UpToCursor(s) && InOrder(s.history) && InOrder(Apply(s, a).history)
    ensures UpToCursor(Apply(s, a))
  {
    hide Folded, Trim, IsPySpace, InOrder;
    if a.Refresh? {
      RowsAfterPrefix(s.history, |s.folded|);
    }
  }

  lemma {:induction false} RunKeepsCursor(actions: seq<Action>)
    requires InOrder(Run(NEW_SESSION, actions).history)
    ensures UpToCursor(Run(NEW_SESSION, actions))
  {
    hide Apply;
    if actions != [] {
      var n := |actions| - 1;
      var before := Run(NEW_SESSION, actions[..n]);
      assert before.history <= Run(NEW_SESSION, actions).history by { HistoryGrows(before, actions[n]); }
      RunKeepsCursor(actions[..n]);
      ApplyKeepsCursor(before, actions[n]);
    }
  }

  lemma HistoryGrows(s: Session, a: Action)
    ensures s.history <= Apply(s, a).history
  {
    hide Refreshed, Folded, Trim;
  }

  /**
   When messages arrive in key order, what the refreshes fold in is the history up to the cursor, and the
   next refresh takes exactly the rest: no message is skipped or folded in twice.
   */
  lemma {:induction false} RefreshesPartitionHistory(actions: seq<Action>)
    requires InOrder(Arrivals(actions))
    ensures var s := Run(NEW_SESSION, actions);
            && s.history == Arrivals(actions)
            && s.folded <= s.history && RowsAfter(s.history, Cursor(s.stored)) == s.history[|s.folded|..]
  {
    HistoryIsArrivals(actions);
    hide Run, Arrivals;
    RunKeepsCursor(actions);
    RowsAfterPrefix(Run(NEW_SESSION, actions).history, |Run(NEW_SESSION, actions).folded|);
  }

  /** A message is seen by the next refresh exactly when its key lies behind the cursor. */
  lemma {:induction false} SeenExactly(history: seq<Row>, cursor: Option<Key>, row: Row)
    requires row in history
    ensures row in RowsAfter(history, cursor) <==> (cursor.None? || cursor.value.Before(row.key))
  {
    var n := |history| - 1;
    OnlyLater(history, cursor);
    if row in history[..n] {
      SeenExactly(history[..n], cursor, row);
    } else {
      assert history == history[..n] + [history[n]];
    }
  }

  lemma {:induction false} OnlyLater(history: seq<Row>, cursor: Option<Key>)
    ensures forall r | r in RowsAfter(history, cursor) :: cursor.None? || cursor.value.Before(r.key)
  {
    if history != [] {
      OnlyLater(history[..|history| - 1], cursor);
    }
  }

  lemma {:induction false} FoldedKeeps(part: string, summary: string, rows: seq<Row>)
    requires Durable(part, summary)
    ensures Durable(part, Folded(summary, rows))
    decreases |rows|
  {
    hide Durable, Merge, Summarize, TurnsOf;
    if rows != [] {
      var batch := if |rows| <= BATCH then rows else rows[..BATCH];
      var addition := Summarize(TurnsOf(batch), BATCH);
      MergeKeeps(part, summary, addition);
      FoldedKeeps(part, Merge(summary, addition), rows[|batch|..]);
    }
  }

  lemma {:induction false} RunKeepsPart(part: string, s: Session, actions: seq<Action>)
    requires Durable(part, Previous(s.stored))
    ensures Durable(part, Previous(Run(s, actions).stored))
  {
    hide Durable, Folded, Trim, RowsAfter;
    if actions != [] {
      var n := |actions| - 1;
      var before := Run(s, actions[..n]);
      RunKeepsPart(part, s, actions[..n]);
      if actions[n].Refresh? {
        var rows := RowsAfter(before.history, Cursor(before.stored));
        FoldedKeeps(part, Previous(before.stored), rows);
        TrimKeeps(part, Folded(Previous(before.stored), rows));
      }
    }
  }

  lemma {:induction false} TrimmedEarlyPartStays(s: Session, actions: seq<Action>)
    requires Trimmed(Previous(s.stored), IsPySpace)
    ensures Early(Previous(s.stored)) <= Previous(Run(s, actions).stored)
  {
    hide Run, Early, IsPySpace;
    EarlyIsDurable(Previous(s.stored));
    RunKeepsPart(Early(Previous(s.stored)), s, actions);
  }

  /** Only trimmed summaries are ever stored. */
  lemma {:induction false} StoredIsTrimmed(actions: seq<Action>)
    ensures Trimmed(Previous(Run(NEW_SESSION, actions).stored), IsPySpace)
  {
    hide IsPySpace, Folded, RowsAfter, Trim;
    if actions != [] {
      StoredIsTrimmed(actions[..|actions| - 1]);
    }
  }

  lemma {:induction false} RunAppend(s: Session, first: seq<Action>, second: seq<Action>)
    ensures Run(s, first + second) == Run(Run(s, first), second)
  {
    hide Apply;
    if second == [] {
      assert first + second == first;
    } else {
      var n := |second| - 1;
      assert (first + second)[..|first + second| - 1] == first + second[..n];
      RunAppend(s, first, second[..n]);
    }
  }

  /**
   Once a summary is stored, its first 1200 characters, without the white space at their end, begin every later
   one, however many messages and refreshes follow.
   */
  lemma {:induction false} StoredEarlyPartStays(first: seq<Action>, more: seq<Action>)
    ensures Run(NEW_SESSION, first).stored.Some? ==>
              var content := Run(NEW_SESSION, first).stored.value.content;
              var later := Run(NEW_SESSION, first + more).stored;
              later.Some? && TrimEnd(if |content| <= 1200 then content else content[..1200], IsPySpace)
                             <= later.value.content
  {
    hide Run, IsPySpace, Trimmed, TrimEnd;
    RunAppend(NEW_SESSION, first, more);
    StoredIsTrimmed(first);
    if Run(NEW_SESSION, first).stored.Some? {
      StoredStays(Run(NEW_SESSION, first), more);
      TrimmedEarlyPartStays(Run(NEW_SESSION, first), more);
    }
  }

  lemma {:induction false} StoredStays(s: Session, actions: seq<Action>)
    requires s.stored.Some?
    ensures Run(s, actions).stored.Some?
  {
    hide Folded, Trim, RowsAfter;
    if actions != [] {
      StoredStays(s, actions[..|actions| - 1]);
    }
  }

  /** The rows that arrived in a run. */
  function Arrivals(actions: seq<Action>): seq<Row> {
    if actions == [] then []
    else
      Arrivals(actions[..|actions| - 1])
      + if actions[|actions| - 1].Arrive? then [actions[|actions| - 1].row] else []
  }

  /** A session's history is what arrived, in order. */
  lemma {:induction false} HistoryIsArrivals(actions: seq<Action>)
    ensures Run(NEW_SESSION, actions).history == Arrivals(actions)
  {
    hide Folded, Trim, RowsAfter, Refreshed;
    if actions != [] {
      HistoryIsArrivals(actions[..|actions| - 1]);
    }
  }

  // ---------------------------------------------------------------- a refresh that is not saved

  lemma {:induction false} JoinEndsInLast(lines: seq<string>)
    requires lines != []
    ensures EndsWith(Join(lines, "\n"), lines[|lines| - 1])
  {
    if |lines| > 1 {
      JoinEndsInLast(lines[1..]);
      EndsWithAppend(lines[0] + "\n", Join(lines[1..], "\n"), lines[|lines| - 1]);
    }
  }

  function LineOf(turn: Turn): string
    requires RoleName(turn.role).Some?
  {
    RoleName(turn.role).value + ": " + Take(Trim(turn.content, IsPySpace), 360)
  }

  /** However much is cut off, a summary ends with the line of its latest message. */
  lemma LatestTurnIsLast(turns: seq<Turn>, maxItems: nat)
    requires turns != []
    requires var last := turns[|turns| - 1];
             RoleName(last.role).Some? && Trim(last.content, IsPySpace) != ""
    ensures EndsWith(Summarize(turns, maxItems), LineOf(turns[|turns| - 1]))
    ensures |Summarize(turns, maxItems)| <= 2400
  {
    hide Trim, IsPySpace, Join;
    var recent := LastTurns(turns, maxItems);
    assert recent[|recent| - 1] == turns[|turns| - 1];
    var lines := LinesOf(recent);
    JoinEndsInLast(lines);
  }

  /** A batch with any text in it has a summary. */
  lemma TurnsAreSummarized(turns: seq<Turn>)
    requires turns != [] && |turns| <= BATCH
    requires var last := turns[|turns| - 1];
             RoleName(last.role).Some? && Trim(last.content, IsPySpace) != ""
    ensures Trim(Summarize(turns, BATCH), IsPySpace) != ""
  {
    hide Trim, IsPySpace, Summarize;
    LatestTurnIsLast(turns, BATCH);
    var summary, line := Summarize(turns, BATCH), LineOf(turns[|turns| - 1]);
    var i := |summary| - |line|;
    assert summary[i] == summary[i..][0];
    LineStartsSolid(turns[|turns| - 1].role, line);
    NotBlank(summary, i, IsPySpace);
  }

  lemma LineStartsSolid(role: Role, line: string)
    requires RoleName(role).Some? && line != "" && line[0] == RoleName(role).value[0]
    ensures !IsPySpace(line[0])
  {
  }

  /** Only blank messages are read again: a refresh that saves nothing had no text to fold in. */
  lemma {:induction false} UnsavedMeansBlank(summary: string, rows: seq<Row>)
    requires Trim(Folded(summary, rows), IsPySpace) == ""
    ensures Trim(summary, IsPySpace) == "" && TurnsOf(rows) == []
    decreases |rows|
  {
    hide Trim, IsPySpace, Merge, Summarize, TurnsOf;
    if rows != [] {
      var batch := if |rows| <= BATCH then rows else rows[..BATCH];
      var turns := TurnsOf(batch);
      var addition := Summarize(turns, BATCH);
      UnsavedMeansBlank(Merge(summary, addition), rows[|batch|..]);
      assert rows == batch + rows[|batch|..];
      TurnsAppend(batch, rows[|batch|..]);
      BlankMerge(summary, addition);
      TurnsHaveText(batch);
      if turns != [] {
        TurnsAreSummarized(turns);
      }
    } else {
      assert TurnsOf([]) == [] by { NoTurns(); }
    }
  }

  lemma NoTurns()
    ensures TurnsOf([]) == []
  {
  }

  lemma BlankMerge(previous: string, addition: string)
    requires Trim(Merge(previous, addition), IsPySpace) == ""
    ensures Trim(previous, IsPySpace) == "" && Trim(addition, IsPySpace) == ""
  {
    hide Trim, IsPySpace, Merge;
    MergeStartsSolid(previous, addition);
    if Merge(previous, addition) != "" {
      NotBlank(Merge(previous, addition), 0, IsPySpace);
    }
  }

  lemma {:induction false} TurnsSnoc(rows: seq<Row>, row: Row)
    ensures TurnsOf(rows + [row]) == TurnsOf(rows) + KeptTurn(row)
  {
    hide KeptTurn;
    assert (rows + [row])[..|rows|] == rows;
  }

  lemma {:induction false} TurnsAppend(a: seq<Row>, b: seq<Row>)
    ensures TurnsOf(a + b) == TurnsOf(a) + TurnsOf(b)
  {
    hide KeptTurn;
    if b == [] {
      assert a + b == a;
    } else {
      hide TurnsOf;
      var init, last := b[..|b| - 1], b[|b| - 1];
      assert b == init + [last] && a + b == (a + init) + [last];
      TurnsAppend(a, init);
      TurnsSnoc(a + init, last);
      TurnsSnoc(init, last);
    }
  }

  lemma {:induction false} TurnsHaveText(rows: seq<Row>)
    ensures |TurnsOf(rows)| <= |rows|
    ensures forall t | t in TurnsOf(rows) :: RoleName(t.role).Some? && Trim(t.content, IsPySpace) != ""
  {
    hide Trim, IsPySpace;
    if rows != [] {
      TurnsHaveText(rows[..|rows| - 1]);
      TrimmedStays(Trim(rows[|rows| - 1].value.content, IsPySpace), IsPySpace);
    }
  }
}
