/** The Last-Event-ID cursor `<execution>:<sequence>` that a reconnecting client sends. */
module EventCursor {
  import opened Wrappers
  import opened Text

  datatype CursorError = WrongExecution | NotAnInteger

  predicate IsDigit(c: char) {
    '0' <= c <= '9'
  }

  function DigitValue(c: char): (d: nat)
    requires IsDigit(c)
    ensures d < 10
  {
    c as int - '0' as int
  }

  /** Digits with single underscores between them, as Python's int() reads them. */
  function ReadDigits(s: string): Option<nat> {
    if s == "" || !IsDigit(s[|s| - 1]) then None
    else if |s| == 1 then Some(DigitValue(s[0]))
    else
      var init := s[..|s| - 1];
      var head := if init[|init| - 1] == '_' then init[..|init| - 1] else init;
      match ReadDigits(head)
      case None => None
      case Some(n) => Some(10 * n + DigitValue(s[|s| - 1]))
  }

  /** White space that int() ignores around an ASCII literal. */
  predicate IsAsciiSpace(c: char) {
    '\U{9}' <= c <= '\U{D}' || c == ' '
  }

  function ReadInt(text: string): Option<int> {
    var s := Trim(text, IsAsciiSpace);
    if s != "" && s[0] == '-' then
      match ReadDigits(s[1..]) case None => None case Some(n) => var m: int := n; Some(-m)
    else
      match ReadDigits(if s != "" && s[0] == '+' then s[1..] else s) case None => None case Some(n) => Some(n)
  }

  /** Position of the last colon, or the length of the text. */
  function LastColon(s: string): (k: nat)
    ensures k <= |s| && forall i | k < i < |s| :: s[i] != ':'
    ensures if k < |s| then s[k] == ':' else ':' !in s
  {
    if s == "" then 0
    else if s[|s| - 1] == ':' then |s| - 1
    else
      var k := LastColon(s[..|s| - 1]);
      if k == |s| - 1 then |s| else k
  }

  /** _parse_event_cursor: the sequence after which to replay, 0 when the header is missing. */
  function ParseEventCursor(value: Option<string>, executionId: string): Result<nat, CursorError> {
    if value.None? || Trim(value.value, IsPySpace) == "" then Ok(0)
    else
      var raw := Trim(value.value, IsPySpace);
      var k := LastColon(raw);
      if k < |raw| && raw[..k] != executionId then Err(WrongExecution)
      else
        match ReadInt(if k < |raw| then raw[k + 1..] else raw)
        case None => Err(NotAnInteger)
        case Some(n) => Ok(if n < 0 then 0 else n)
  }

  /** A sequence number as str() prints it. */
  function Decimal(n: nat): (s: string)
    ensures s != "" && forall i | 0 <= i < |s| :: IsDigit(s[i])
  {
    if n < 10 then [('0' as int + n) as char] else Decimal(n / 10) + [('0' as int + n % 10) as char]
  }

  /** The id the server attaches to an event. */
  function EventId(executionId: string, sequence: nat): string {
    executionId + ":" + Decimal(sequence)
  }

  lemma {:induction false} DigitsComeBack(n: nat)
    ensures ReadDigits(Decimal(n)) == Some(n)
  {
    if n >= 10 {
      DigitsComeBack(n / 10);
      var s := Decimal(n);
      assert s[..|s| - 1] == Decimal(n / 10);
    }
  }

  lemma {:induction false} DecimalReads(n: nat)
    ensures ReadInt(Decimal(n)) == Some(n)
  {
    hide Decimal, ReadDigits, Trim;
    var s := Decimal(n);
    assert IsDigit(s[0]) && IsDigit(s[|s| - 1]);
    assert Trim(s, IsAsciiSpace) == s by { TrimmedStays(s, IsAsciiSpace); }
    DigitsComeBack(n);
  }

  lemma {:induction false} ColonOfEventId(head: string, n: nat)
    ensures LastColon(head + ":" + Decimal(n)) == |head|
  {
    hide Decimal, LastColon;
    var s, d := head + ":" + Decimal(n), Decimal(n);
    assert s[|head|] == ':';
    forall i | |head| < i < |s| ensures s[i] != ':' {
      assert s[i] == d[i - |head| - 1];
    }
  }

  lemma {:induction false} StripStart(s: string, tail: string)
    requires tail != "" && !IsPySpace(tail[0])
    ensures TrimStart(s + tail, IsPySpace) == TrimStart(s, IsPySpace) + tail
  {
    if s != "" && IsPySpace(s[0]) {
      assert (s + tail)[1..] == s[1..] + tail;
      StripStart(s[1..], tail);
    } else if s == "" {
      assert s + tail == tail;
    }
  }

  lemma {:induction false} SolidEnd(s: string, tail: string)
    requires tail != "" && !IsPySpace(tail[|tail| - 1])
    ensures TrimEnd(s + tail, IsPySpace) == s + tail
  {
    hide TrimEnd, IsPySpace;
    assert (s + tail)[|s + tail| - 1] == tail[|tail| - 1];
  }

  lemma {:induction false} StripSolidTail(s: string, tail: string)
    requires tail != "" && !IsPySpace(tail[0]) && !IsPySpace(tail[|tail| - 1])
    ensures Trim(s + tail, IsPySpace) == TrimStart(s, IsPySpace) + tail
  {
    hide TrimStart, TrimEnd, IsPySpace;
    StripStart(s, tail);
    SolidEnd(TrimStart(s, IsPySpace), tail);
  }

  /** Stripping an event id can only cost leading space of the execution id. */
  lemma {:induction false} StripEventId(id: string, n: nat)
    ensures Trim(EventId(id, n), IsPySpace) == EventId(TrimStart(id, IsPySpace), n)
  {
    hide TrimStart, Trim, Decimal;
    var head, tail, d := TrimStart(id, IsPySpace), ":" + Decimal(n), Decimal(n);
    assert tail[|tail| - 1] == d[|d| - 1];
    StripSolidTail(id, tail);
    assert EventId(id, n) == id + tail && EventId(head, n) == head + tail;
  }

  /** The server accepts a cursor of its own exactly for the execution it names. */
  lemma {:induction false} CursorRoundTrip(id: string, executionId: string, n: nat)
    ensures ParseEventCursor(Some(EventId(id, n)), executionId)
         == if TrimStart(id, IsPySpace) == executionId then Ok(n) else Err(WrongExecution)
  {
    hide Trim, TrimStart, LastColon, ReadInt, Decimal, IsDigit;
    var head := TrimStart(id, IsPySpace);
    StripEventId(id, n);
    ColonOfEventId(head, n);
    var raw := EventId(head, n);
    assert raw[..|head|] == head && raw[|head| + 1..] == Decimal(n);
    DecimalReads(n);
  }

  /** So replaying an execution from its own event id works exactly when the id has no leading space. */
  lemma OwnCursorAccepted(executionId: string, n: nat)
    ensures ParseEventCursor(Some(EventId(executionId, n)), executionId) == Ok(n)
        <==> executionId == "" || !IsPySpace(executionId[0])
  {
    hide ParseEventCursor, EventId;
    CursorRoundTrip(executionId, executionId, n);
  }

  /** A bare sequence number is accepted for every execution. */
  lemma {:induction false} BareCursorAccepted(executionId: string, n: nat)
    ensures ParseEventCursor(Some(Decimal(n)), executionId) == Ok(n)
  {
    hide ReadInt, Decimal;
    var s := Decimal(n);
    assert !IsPySpace(s[0]) && !IsPySpace(s[|s| - 1]);
    DecimalReads(n);
  }

  // ---------------------------------------------------------------- every other header

  /** A missing or blank header starts from the beginning. */
  lemma MissingCursorIsZero(text: string, executionId: string)
    requires forall i | 0 <= i < |text| :: IsPySpace(text[i])
    ensures ParseEventCursor(None, executionId) == Ok(0) && ParseEventCursor(Some(text), executionId) == Ok(0)
  {
    hide IsPySpace, Trim;
    BlankExactly(text, IsPySpace);
  }

  /**
   What the server makes of any header that is not blank: the part before the last colon has to name the
   execution, and the number behind it counts from 0.
   */
  lemma {:induction false} CursorExactly(text: string, executionId: string, head: Option<string>, number: string)
    requires Trim(text, IsPySpace) != "" && ':' !in number
    requires Trim(text, IsPySpace) == if head.Some? then head.value + ":" + number else number
    ensures var parsed := ParseEventCursor(Some(text), executionId);
            && (parsed == Err(WrongExecution) <==> head.Some? && head.value != executionId)
            && (parsed == Err(NotAnInteger) <==>
                  (head.None? || head.value == executionId) && ReadInt(number).None?)
            && (parsed.Ok? ==>
                  ReadInt(number).Some? && parsed.value >= 0
                  && parsed.value == if ReadInt(number).value >= 0 then ReadInt(number).value else 0)
  {
    hide Trim, ReadInt, LastColon;
    var raw := Trim(text, IsPySpace);
    if head.Some? {
      assert raw[|head.value|] == ':' && raw[..|head.value|] == head.value && raw[|head.value| + 1..] == number;
      forall i | |head.value| < i < |raw| ensures raw[i] != ':' {
        assert raw[i] == number[i - |head.value| - 1];
      }
      assert LastColon(raw) == |head.value|;
    }
  }

  /** Digits, with single underscores between digits. */
  predicate IsNumeral(s: string) {
    && s != "" && IsDigit(s[0]) && IsDigit(s[|s| - 1])
    && (forall i | 0 <= i < |s| :: IsDigit(s[i]) || s[i] == '_')
    && forall i | 0 <= i < |s| - 1 :: IsDigit(s[i]) || IsDigit(s[i + 1])
  }

  function WithoutBars(s: string): string {
    if s == "" then ""
    else WithoutBars(s[..|s| - 1]) + if s[|s| - 1] == '_' then "" else [s[|s| - 1]]
  }

  /** The numeral without its last digit, and without the underscore before that. */
  function Shorter(s: string): (head: string)
    requires |s| > 1
    ensures |head| < |s|
  {
    if s[|s| - 2] == '_' then s[..|s| - 2] else s[..|s| - 1]
  }

  lemma {:induction false} ReadShorter(s: string)
    requires |s| > 1 && IsDigit(s[|s| - 1])
    ensures ReadDigits(s).Some? <==> ReadDigits(Shorter(s)).Some?
    ensures ReadDigits(s).Some? ==> ReadDigits(s).value == 10 * ReadDigits(Shorter(s)).value + DigitValue(s[|s| - 1])
  {
    var init := s[..|s| - 1];
    assert init[..|init| - 1] == s[..|s| - 2];
  }

  lemma ShorterIsNumeral(s: string)
    requires |s| > 1 && IsDigit(s[|s| - 1])
    ensures IsNumeral(s) <==> IsNumeral(Shorter(s))
  {
    var head := Shorter(s);
    assert forall i | 0 <= i < |head| :: head[i] == s[i];
    assert forall i | |head| <= i < |s| - 1 :: s[i] == '_';
  }

  /** Exactly the numerals are read. */
  lemma {:induction false} NumeralsExactly(s: string)
    ensures ReadDigits(s).Some? <==> IsNumeral(s)
  {
    if |s| > 1 && IsDigit(s[|s| - 1]) {
      ReadShorter(s);
      ShorterIsNumeral(s);
      NumeralsExactly(Shorter(s));
      hide ReadDigits, IsNumeral;
    }
  }

  /** The underscores of a numeral do not count. */
  lemma {:induction false} BarsDoNotCount(s: string)
    requires IsNumeral(s)
    ensures ReadDigits(WithoutBars(s)) == ReadDigits(s)
  {
    if |s| > 1 {
      ShorterIsNumeral(s);
      BarsDoNotCount(Shorter(s));
      BarsStep(s);
    }
  }

  lemma {:induction false} BarsStep(s: string)
    requires |s| > 1 && IsNumeral(s) && IsNumeral(Shorter(s))
    requires ReadDigits(WithoutBars(Shorter(s))) == ReadDigits(Shorter(s))
    ensures ReadDigits(WithoutBars(s)) == ReadDigits(s)
  {
    var head := Shorter(s);
    BarsDropped(s, head);
    NoBars(head);
    hide ReadDigits;
    AppendDigit(WithoutBars(head), s[|s| - 1]);
    NumeralsExactly(s);
    ReadShorter(s);
    hide WithoutBars;
  }

  lemma {:induction false} AppendDigit(head: string, c: char)
    requires head != "" && head[|head| - 1] != '_' && IsDigit(c)
    ensures ReadDigits(head + [c])
         == if ReadDigits(head).Some? then Some(10 * ReadDigits(head).value + DigitValue(c)) else None
  {
    hide ReadDigits;
    var s := head + [c];
    assert s[..|s| - 1] == head && s[|s| - 2] == head[|head| - 1];
    ReadShorter(s);
  }

  lemma {:induction false} NoBars(s: string)
    ensures '_' !in WithoutBars(s)
  {
    if s != "" {
      NoBars(s[..|s| - 1]);
    }
  }

  lemma {:induction false} BarsDropped(s: string, head: string)
    requires |s| > 1 && s[|s| - 1] != '_' && head != "" && head[|head| - 1] != '_'
    requires head == s[..|s| - 1] || (head == s[..|s| - 2] && s[|s| - 2] == '_')
    ensures WithoutBars(head) != ""
    ensures WithoutBars(s) == WithoutBars(head) + [s[|s| - 1]]
  {
    if head != s[..|s| - 1] {
      var init := s[..|s| - 1];
      assert init[..|init| - 1] == head && WithoutBars(init) == WithoutBars(head) + "";
    }
  }

  lemma SolidNumber(sign: string, s: string)
    requires |sign| <= 1 && IsNumeral(s) && (sign != "" ==> !IsAsciiSpace(sign[0]))
    ensures Trim(sign + s, IsAsciiSpace) == sign + s
  {
    assert (sign + s)[|sign + s| - 1] == s[|s| - 1];
    TrimmedStays(sign + s, IsAsciiSpace);
    hide Trim;
  }

  /** A sign in front of the digits counts. */
  lemma {:induction false} SignedNumber(sign: string, s: string, n: nat)
    requires sign in ["", "+", "-"] && ReadDigits(s) == Some(n)
    ensures var m: int := n; ReadInt(sign + s) == Some(if sign == "-" then -m else m)
  {
    NumeralsExactly(s);
    hide ReadDigits, Trim;
    SolidNumber(sign, s);
    assert sign != "" ==> (sign + s)[1..] == s;
    assert sign == "" ==> sign + s == s;
  }

  /** The spaces that may stand around a number. */
  lemma AsciiSpaces(c: char)
    ensures IsAsciiSpace(c) <==> c in "\t\n\U{B}\U{C}\r "
  {
  }
}
