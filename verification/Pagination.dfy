/** Pages of a session's messages, newest first, and the cursor that leads from one page to the next. */
module Pagination {
  import opened Arithmetic
  import opened MessageOrder
  import opened Text
  import opened Wrappers

  // ---------------------------------------------------------------- the cursor text

  datatype CursorError = EmptyCursor | BadFormat | BadTimestamp

  const SEPARATOR := '|'

  /** Position of the first separator, or the length of the text. */
  function FirstSeparator(s: string): (k: nat)
    ensures k <= |s| && forall i | 0 <= i < k :: s[i] != SEPARATOR
    ensures k < |s| ==> s[k] == SEPARATOR
  {
    if s == "" || s[0] == SEPARATOR then 0 else 1 + FirstSeparator(s[1..])
  }

  function EncodeCursor<Time>(createdAt: Time, id: string, isoformat: Time -> string): string {
    isoformat(createdAt) + [SEPARATOR] + id
  }

  /** _decode_cursor of a cursor that was sent; `fromisoformat` gives nothing for a bad timestamp. */
  function DecodeCursor<Time>(cursor: string, fromisoformat: string -> Option<Time>)
    : Result<(Time, string), CursorError>
  {
    if Trim(cursor, IsPySpace) == "" then Err(EmptyCursor)
    else
      var k := FirstSeparator(cursor);
      if k == |cursor| || k == 0 || k + 1 == |cursor| then Err(BadFormat)
      else
        match fromisoformat(cursor[..k])
        case None => Err(BadTimestamp)
        case Some(t) => Ok((t, cursor[k + 1..]))
  }

  lemma {:induction false} SeparatorFound(head: string, tail: string)
    requires forall i | 0 <= i < |head| :: head[i] != SEPARATOR
    ensures FirstSeparator(head + [SEPARATOR] + tail) == |head|
  {
    var s := head + [SEPARATOR] + tail;
    if head != "" {
      assert s[1..] == head[1..] + [SEPARATOR] + tail;
      SeparatorFound(head[1..], tail);
    }
  }

  /** Decoding undoes encoding for every message that has an id. */
  lemma {:induction false} CursorRoundTrip<Time>(createdAt: Time, id: string, isoformat: Time -> string,
                                                 fromisoformat: string -> Option<Time>)
    requires isoformat(createdAt) != "" && SEPARATOR !in isoformat(createdAt)
    requires fromisoformat(isoformat(createdAt)) == Some(createdAt)
    ensures DecodeCursor(EncodeCursor(createdAt, id, isoformat), fromisoformat) == Ok((createdAt, id)) <==> id != ""
  {
    hide Trim, FirstSeparator;
    var time := isoformat(createdAt);
    var cursor := time + [SEPARATOR] + id;
    SeparatorFound(time, id);
    assert cursor[|time|] == SEPARATOR;
    NotBlank(cursor, |time|, IsPySpace);
    assert cursor[..|time|] == time && cursor[|time| + 1..] == id;
  }

  /** Which cursors a request may send: a timestamp that parses, the separator, and an id that is not empty. */
  lemma {:induction false} CursorExactly<Time>(cursor: string, fromisoformat: string -> Option<Time>,
                                               t: Time, id: string)
    ensures DecodeCursor(cursor, fromisoformat) == Ok((t, id))
        <==> && id != ""
             && exists time | time != "" && SEPARATOR !in time && cursor == time + [SEPARATOR] + id ::
                  fromisoformat(time) == Some(t)
  {
    hide Trim;
    if DecodeCursor(cursor, fromisoformat) == Ok((t, id)) {
      var time := cursor[..FirstSeparator(cursor)];
      assert cursor == time + [SEPARATOR] + id && fromisoformat(time) == Some(t);
    }
    forall time | id != "" && time != "" && SEPARATOR !in time && cursor == time + [SEPARATOR] + id
      ensures DecodeCursor(cursor, fromisoformat) == match fromisoformat(time)
                                                     case None => Err(BadTimestamp)
                                                     case Some(u) => Ok((u, id))
    {
      SplitCursor(cursor, time, id);
    }
  }

  lemma {:induction false} SplitCursor(cursor: string, time: string, id: string)
    requires SEPARATOR !in time && cursor == time + [SEPARATOR] + id
    ensures FirstSeparator(cursor) == |time| && cursor[..|time|] == time && cursor[|time| + 1..] == id
    ensures Trim(cursor, IsPySpace) != ""
  {
    hide FirstSeparator, Trim;
    SeparatorFound(time, id);
    SeparatorIsNotBlank(cursor, |time|);
  }

  lemma SeparatorIsNotBlank(cursor: string, i: nat)
    requires i < |cursor| && cursor[i] == SEPARATOR
    ensures Trim(cursor, IsPySpace) != ""
  {
    hide Trim;
    NotBlank(cursor, i, IsPySpace);
  }

  /** How the other cursors are refused: blank, without two parts, or without a timestamp in the first. */
  lemma {:induction false} RefusedExactly<Time>(cursor: string, fromisoformat: string -> Option<Time>)
    ensures DecodeCursor(cursor, fromisoformat) == Err(EmptyCursor)
        <==> forall i | 0 <= i < |cursor| :: IsPySpace(cursor[i])
    ensures DecodeCursor(cursor, fromisoformat) == Err(BadTimestamp)
        <==> exists time, id | time != "" && id != "" && SEPARATOR !in time ::
               cursor == time + [SEPARATOR] + id && fromisoformat(time) == None
  {
    hide Trim, IsPySpace;
    BlankExactly(cursor, IsPySpace);
    if DecodeCursor(cursor, fromisoformat) == Err(BadTimestamp) {
      var k := FirstSeparator(cursor);
      var time, id := cursor[..k], cursor[k + 1..];
      assert cursor == time + [SEPARATOR] + id && fromisoformat(time) == None;
    }
    forall time, id | time != "" && id != "" && SEPARATOR !in time && cursor == time + [SEPARATOR] + id
                      && fromisoformat(time) == None
      ensures DecodeCursor(cursor, fromisoformat) == Err(BadTimestamp)
    {
      SplitCursor(cursor, time, id);
    }
  }

  // ---------------------------------------------------------------- one page

  type Message = Keyed<string>

  datatype Page = Page(rows: seq<Message>, next: Option<Key>)

  function RowsBefore(messages: seq<Message>, cursor: Option<Key>): seq<Message> {
    if messages == [] then []
    else
      var last := messages[|messages| - 1];
      RowsBefore(messages[..|messages| - 1], cursor)
      + if cursor.None? || last.key.Before(cursor.value) then [last] else []
  }

  function Reverse(s: seq<Message>): (r: seq<Message>)
    ensures |r| == |s| && forall i | 0 <= i < |s| :: r[i] == s[|s| - 1 - i]
  {
    if s == [] then [] else [s[|s| - 1]] + Reverse(s[..|s| - 1])
  }

  /** The newest `limit` of the matching rows, of which one more than that is fetched. */
  function PageOf(matching: seq<Message>, limit: nat): Page
    requires limit >= 1
  {
    var newestFirst := Reverse(matching);
    var fetched := if |newestFirst| <= limit + 1 then newestFirst else newestFirst[..limit + 1];
    if fetched == [] then Page([], None)
    else
      var rows := Reverse(if |fetched| > limit then fetched[..limit] else fetched);
      Page(rows, if |fetched| > limit then Some(rows[0].key) else None)
  }

  /** _get_session_messages; `messages` is the session in key order. */
  function GetPage(messages: seq<Message>, cursor: Option<Key>, limit: nat): Page
    requires limit >= 1
  {
    PageOf(RowsBefore(messages, cursor), limit)
  }

  /** A page is the newest part of what lies before the cursor, and points on exactly when more is there. */
  lemma {:induction false} PageIsNewest(messages: seq<Message>, cursor: Option<Key>, limit: nat)
    requires limit >= 1
    ensures var matching := RowsBefore(messages, cursor);
            var page := GetPage(messages, cursor, limit);
            if |matching| > limit
            then page.rows == matching[|matching| - limit..] && page.next == Some(matching[|matching| - limit].key)
            else page.rows == matching && page.next == None
  {
    var matching := RowsBefore(messages, cursor);
    hide RowsBefore;
    if |matching| > limit {
      LongPage(matching, limit);
    } else {
      ReversedTwice(matching);
      hide Reverse;
    }
    hide PageOf;
  }

  lemma LongPage(matching: seq<Message>, limit: nat)
    requires 1 <= limit < |matching|
    ensures PageOf(matching, limit)
         == Page(matching[|matching| - limit..], Some(matching[|matching| - limit].key))
  {
    var newestFirst := Reverse(matching);
    hide Reverse;
    assert newestFirst[..limit + 1][..limit] == newestFirst[..limit];
    assert Reverse(newestFirst[..limit]) == matching[|matching| - limit..];
  }

  lemma {:induction false} ReversedTwice(rows: seq<Message>)
    ensures Reverse(Reverse(rows)) == rows
  {
    hide Reverse;
  }

  lemma {:induction false} RowsBeforeCut(messages: seq<Message>, k: nat)
    requires InOrder(messages) && k < |messages|
    ensures RowsBefore(messages, Some(messages[k].key)) == messages[..k]
  {
    var n := |messages| - 1;
    var rest := messages[..n];
    if k < n {
      RowsBeforeCut(rest, k);
    } else {
      AllBefore(rest, messages[k].key);
    }
  }

  lemma {:induction false} AllBefore(messages: seq<Message>, key: Key)
    requires forall i | 0 <= i < |messages| :: messages[i].key.Before(key)
    ensures RowsBefore(messages, Some(key)) == messages
  {
    if messages != [] {
      assert messages == messages[..|messages| - 1] + [messages[|messages| - 1]];
      AllBefore(messages[..|messages| - 1], key);
    }
  }

  lemma {:induction false} NoCursorTakesAll(messages: seq<Message>)
    ensures RowsBefore(messages, None) == messages
  {
    if messages != [] {
      assert messages == messages[..|messages| - 1] + [messages[|messages| - 1]];
      NoCursorTakesAll(messages[..|messages| - 1]);
    }
  }

  // ---------------------------------------------------------------- following the cursor

  lemma LastPage(count: nat, left: nat, pages: nat, limit: nat)
    requires 1 <= left <= limit && count == left + pages * limit
    ensures pages + 1 == (count + limit - 1) / limit
  {
    var rest := left - 1;
    assert count + limit - 1 == (pages + 1) * limit + rest && rest < limit;
    DivideExactly(pages + 1, limit, rest);
  }

  function Left(left: nat, limit: nat): nat {
    if left > limit then left - limit else 0
  }

  /** The page behind a cursor at position `left`, whatever newer messages have arrived. */
  lemma NextPage(messages: seq<Message>, newer: seq<Message>, left: nat, limit: nat)
    requires limit >= 1 && left < |messages| && InOrder(messages + newer)
    ensures var page := GetPage(messages + newer, Some(messages[left].key), limit);
            && page.rows == messages[Left(left, limit)..left]
            && page.next == if left <= limit then None else Some(messages[left - limit].key)
  {
    hide RowsBefore, GetPage, InOrder;
    var now := messages + newer;
    assert now[left] == messages[left] && now[..left] == messages[..left];
    RowsBeforeCut(now, left);
    PageIsNewest(now, Some(messages[left].key), limit);
  }

  lemma FirstPage(messages: seq<Message>, limit: nat)
    requires limit >= 1
    ensures var page := GetPage(messages, None, limit);
            var left := Left(|messages|, limit);
            && page.rows == messages[left..]
            && page.next == if left == 0 then None else Some(messages[left].key)
  {
    hide RowsBefore, GetPage;
    NoCursorTakesAll(messages);
    PageIsNewest(messages, None, limit);
  }

  /** How many pages have been read when `left` messages are still to come. */
  ghost predicate PagesRead(count: nat, left: nat, pages: nat, limit: nat)
    requires limit >= 1
  {
    if left > 0 then count == left + pages * limit
    else pages == if count == 0 then 1 else (count + limit - 1) / limit
  }

  lemma OneMorePage(count: nat, left: nat, pages: nat, limit: nat)
    requires limit >= 1 && (left > 0 || count == 0)
    requires count == left + pages * limit
    ensures PagesRead(count, Left(left, limit), pages + 1, limit)
  {
    assert (pages + 1) * limit == pages * limit + limit;
    if 0 < left <= limit {
      LastPage(count, left, pages, limit);
    }
  }

  /**
   A client that follows next_cursor to the end: it gets every message the session had when it fetched the
   first page exactly once and in order, whatever newer messages arrive before each later page.
   */
  method FollowCursor(messages: seq<Message>, arrivals: nat -> seq<Message>, limit: nat)
    returns (received: seq<Message>, pages: nat)
    requires limit >= 1
    requires forall p :: InOrder(messages + arrivals(p))
    ensures received == messages
    ensures pages == if messages == [] then 1 else (|messages| + limit - 1) / limit
  {
    hide GetPage, InOrder;
    FirstPage(messages, limit);
    OneMorePage(|messages|, |messages|, 0, limit);
    var page := GetPage(messages, None, limit);
    received, pages := page.rows, 1;
    ghost var left: nat := Left(|messages|, limit);
    while page.next.Some?
      invariant left <= |messages| && (left < |messages| || messages == []) && received == messages[left..]
      invariant page.next == if left == 0 then None else Some(messages[left].key)
      invariant PagesRead(|messages|, left, pages, limit)
      decreases left
    {
      NextPage(messages, arrivals(pages), left, limit);
      OneMorePage(|messages|, left, pages, limit);
      page := GetPage(messages + arrivals(pages), page.next, limit);
      received := page.rows + received;
      left := Left(left, limit);
      pages := pages + 1;
    }
  }
}
