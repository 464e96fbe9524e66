/**
 Streamed assistant text: a provider sends chunks that may be increments or growing snapshots, and the
 runtime turns them into the deltas the browser appends.
 */
module TextDelta {
  import opened Text
  import opened Sequences

  // ---------------------------------------------------------------- the specification

  /** The last `size` characters of `previous` are the first of `current`. */
  predicate Overlaps(previous: string, current: string, size: nat) {
    size <= |previous| && size <= |current| && previous[|previous| - size..] == current[..size]
  }

  /** The largest overlap of at most `size` characters. */
  function OverlapBelow(previous: string, current: string, size: nat): (k: nat)
    requires size <= |previous| && size <= |current|
    ensures k <= size && Overlaps(previous, current, k)
    ensures forall j | k < j <= size :: !Overlaps(previous, current, j)
  {
    if Overlaps(previous, current, size) then size else OverlapBelow(previous, current, size - 1)
  }

  function Overlap(previous: string, current: string): (k: nat)
    ensures Overlaps(previous, current, k)
    ensures forall j: nat | Overlaps(previous, current, j) :: j <= k
  {
    OverlapBelow(previous, current, if |previous| <= |current| then |previous| else |current|)
  }

  /** `text` begins with `previous` and ends with `current`. */
  predicate Joins(text: string, previous: string, current: string) {
    previous <= text && EndsWith(text, current)
  }

  ghost predicate ShortestJoin(text: string, previous: string, current: string) {
    Joins(text, previous, current) && forall other | Joins(other, previous, current) :: |text| <= |other|
  }

  /** A text that joins the two and is no longer than both together shows an overlap. */
  lemma JoinOverlaps(text: string, previous: string, current: string)
    requires Joins(text, previous, current)
    ensures |text| >= |previous| && |text| >= |current|
    ensures |text| <= |previous| + |current| ==> Overlaps(previous, current, |previous| + |current| - |text|)
  {
    if |text| <= |previous| + |current| {
      var k := |previous| + |current| - |text|;
      assert previous[|previous| - k..] == text[|previous| - k..|previous|];
      assert current[..k] == text[|text| - |current|..][..k];
    }
  }

  /** Appending what lies behind the largest overlap gives the shortest join. */
  lemma LargestOverlapJoins(previous: string, current: string)
    ensures ShortestJoin(previous + current[Overlap(previous, current)..], previous, current)
  {
    var k := Overlap(previous, current);
    var text := previous + current[k..];
    assert text[|text| - |current|..] == current[..k] + current[k..];
    assert current[..k] + current[k..] == current;
    forall other | Joins(other, previous, current) ensures |text| <= |other| {
      JoinOverlaps(other, previous, current);
    }
  }

  // ---------------------------------------------------------------- the code

  /** _suffix_prefix_overlap: tries the sizes downwards. */
  method SuffixPrefixOverlap(previous: string, current: string) returns (size: nat)
    ensures size == Overlap(previous, current)
  {
    size := if |previous| <= |current| then |previous| else |current|;
    while size > 0
      invariant size <= |previous| && size <= |current|
      invariant forall j: nat | Overlaps(previous, current, j) :: j <= size
    {
      if previous[|previous| - size..] == current[..size] {
        assert Overlaps(previous, current, size);
        return;
      }
      size := size - 1;
    }
  }

  /** _message_text_delta: what to append to `previous` when `current` arrives. */
  function MessageTextDelta(previous: string, current: string): string {
    if current == "" then ""
    else if previous == "" then current
    else if current == previous then ""
    else if previous <= current then current[|previous|..]
    else if EndsWith(previous, current) then ""
    else
      var overlap := Overlap(previous, current);
      if overlap > 0 then current[overlap..]
      else if EndsWith(current, previous) then ""
      else current
  }

  /** A longer text that ends with everything shown so far, but does not begin with any of its end. */
  predicate Prepended(previous: string, current: string) {
    && previous != "" && |current| > |previous| && EndsWith(current, previous)
    && Overlap(previous, current) == 0
  }

  lemma PrefixOverlaps(previous: string, current: string)
    requires previous <= current
    ensures Overlap(previous, current) == |previous|
  {
    assert Overlaps(previous, current, |previous|);
  }

  lemma SuffixOverlaps(previous: string, current: string)
    requires EndsWith(previous, current)
    ensures Overlap(previous, current) == |current|
  {
    assert Overlaps(previous, current, |current|);
  }

  /** Apart from that one case every branch is the largest overlap. */
  lemma {:induction false} DeltaIsOverlap(previous: string, current: string)
    requires !Prepended(previous, current)
    ensures MessageTextDelta(previous, current) == current[Overlap(previous, current)..]
  {
    hide Overlap, Overlaps;
    if current != "" && previous != "" && previous <= current {
      PrefixOverlaps(previous, current);
    } else if current == "" || (previous != "" && EndsWith(previous, current)) {
      SuffixOverlaps(previous, current);
    } else if previous == "" {
      PrefixOverlaps(previous, current);
    }
  }

  lemma PrependedIsDropped(previous: string, current: string)
    requires Prepended(previous, current)
    ensures MessageTextDelta(previous, current) == ""
  {
    hide Overlap;
    if previous <= current {
      PrefixOverlaps(previous, current);
    }
  }

  /** The text shown afterwards is the shortest join exactly when the chunk was not prepended to it. */
  lemma DeltaJoinsExactly(previous: string, current: string)
    ensures ShortestJoin(previous + MessageTextDelta(previous, current), previous, current)
        <==> !Prepended(previous, current)
  {
    hide Overlap, ShortestJoin;
    if Prepended(previous, current) {
      assert !ShortestJoin(previous, previous, current) by { TooShort(previous, current); }
      assert previous + "" == previous;
      PrependedIsDropped(previous, current);
    } else {
      DeltaIsOverlap(previous, current);
      LargestOverlapJoins(previous, current);
    }
  }

  lemma TooShort(previous: string, current: string)
    requires |current| > |previous|
    ensures !ShortestJoin(previous, previous, current)
  {
  }

  /** An increment arrives whole exactly when it shares nothing with the end of what is shown. */
  lemma IncrementKeptExactly(previous: string, current: string)
    requires previous != "" && current != ""
    ensures MessageTextDelta(previous, current) == current
        <==> Overlap(previous, current) == 0 && !EndsWith(current, previous)
  {
    hide Overlap;
    if !Prepended(previous, current) {
      DeltaIsOverlap(previous, current);
      if |current| <= |previous| && EndsWith(current, previous) {
        assert current == previous;
        assert Overlaps(previous, current, |current|);
      }
    } else {
      PrependedIsDropped(previous, current);
    }
  }

  // ---------------------------------------------------------------- streams of chunks

  /** The text shown after a run of chunks. */
  function Shown(chunks: seq<string>): string {
    if chunks == [] then ""
    else
      var previous := Shown(chunks[..|chunks| - 1]);
      previous + MessageTextDelta(previous, chunks[|chunks| - 1])
  }

  /** Snapshots, each extending the one before. */
  predicate Growing(chunks: seq<string>) {
    forall i, j | 0 <= i <= j < |chunks| :: chunks[i] <= chunks[j]
  }

  lemma ExtensionReproduces(previous: string, current: string)
    requires previous <= current
    ensures previous + MessageTextDelta(previous, current) == current
  {
    hide Overlap, EndsWith;
  }

  lemma {:induction false} SnapshotsReproduce(chunks: seq<string>)
    requires chunks != [] && Growing(chunks)
    ensures Shown(chunks) == chunks[|chunks| - 1]
  {
    hide MessageTextDelta;
    var n := |chunks| - 1;
    if n > 0 {
      SnapshotsReproduce(chunks[..n]);
      assert chunks[..n][n - 1] == chunks[n - 1] <= chunks[n];
      ExtensionReproduces(chunks[n - 1], chunks[n]);
    } else {
      assert chunks[..0] == [] && Shown([]) == "";
      ExtensionReproduces("", chunks[0]);
    }
  }

  datatype Chunk = ToolChunk(id: string) | Fragment(id: string, text: string)

  datatype Delta = Delta(id: string, text: string)

  function MessageId(chunk: Chunk, fallback: string): string {
    if chunk.id != "" then chunk.id else fallback
  }

  /** The text fragments of one message, in order. */
  function FragmentsOf(chunks: seq<Chunk>, id: string, fallback: string): seq<string> {
    if chunks == [] then []
    else
      var last := chunks[|chunks| - 1];
      FragmentsOf(chunks[..|chunks| - 1], id, fallback)
      + if last.Fragment? && last.text != "" && MessageId(last, fallback) == id then [last.text] else []
  }

  /** The chunk carries text for this message: by its own id, or by having none when the message is the fallback's. */
  predicate Tells(chunk: Chunk, id: string, fallback: string) {
    && chunk.Fragment? && chunk.text != ""
    && (chunk.id == id || (chunk.id == "" && id == fallback)) && (chunk.id == "" ==> id == fallback)
  }

  /** `texts` are the texts of the chunks at `places`, which are exactly those that carry text for the message. */
  ghost predicate TextsAt(places: seq<nat>, texts: seq<string>, chunks: seq<Chunk>, id: string, fallback: string) {
    && Rising(places) && |places| == |texts|
    && (forall i: nat :: i in places <==> i < |chunks| && Tells(chunks[i], id, fallback))
    && forall k | 0 <= k < |places| ::
         places[k] < |chunks| && chunks[places[k]].Fragment? && texts[k] == chunks[places[k]].text
  }

  lemma TextsAppend(places: seq<nat>, texts: seq<string>, chunks: seq<Chunk>, chunk: Chunk, id: string,
                    fallback: string)
    requires TextsAt(places, texts, chunks, id, fallback)
    ensures if Tells(chunk, id, fallback)
            then TextsAt(places + [|chunks|], texts + [chunk.text], chunks + [chunk], id, fallback)
            else TextsAt(places, texts, chunks + [chunk], id, fallback)
  {
    var longer := chunks + [chunk];
    assert forall i | 0 <= i < |chunks| :: longer[i] == chunks[i];
    if Tells(chunk, id, fallback) {
      RisingAppend(places, |chunks|);
    }
    hide Tells, Rising;
  }

  /** The fragments of a message are the texts that carry its id, in order: messages never share a text. */
  lemma {:induction false} FragmentsExactly(chunks: seq<Chunk>, id: string, fallback: string)
    returns (places: seq<nat>)
    ensures TextsAt(places, FragmentsOf(chunks, id, fallback), chunks, id, fallback)
  {
    places := [];
    if chunks != [] {
      var n := |chunks| - 1;
      places := FragmentsExactly(chunks[..n], id, fallback);
      TextsAppend(places, FragmentsOf(chunks[..n], id, fallback), chunks[..n], chunks[n], id, fallback);
      hide TextsAt;
      assert chunks == chunks[..n] + [chunks[n]];
      if Tells(chunks[n], id, fallback) {
        places := places + [n];
      }
    }
  }

  /** What the browser has after appending the deltas of one message. */
  function Appended(deltas: seq<Delta>, id: string): string {
    if deltas == [] then ""
    else
      Appended(deltas[..|deltas| - 1], id)
      + if deltas[|deltas| - 1].id == id then deltas[|deltas| - 1].text else ""
  }

  lemma {:induction false} AppendedSnoc(deltas: seq<Delta>, delta: Delta, id: string)
    ensures Appended(deltas + [delta], id) == Appended(deltas, id) + if delta.id == id then delta.text else ""
  {
    assert (deltas + [delta])[..|deltas|] == deltas;
  }

  class ChunkEmitter {
    const fallback: string
    var byId: map<string, string>
    var parts: seq<string>
    var emitted: seq<Delta>

    ghost predicate Valid()
      reads this
    {
      && (forall id :: Appended(emitted, id) == if id in byId then byId[id] else "")
      && |parts| == |emitted| && forall i | 0 <= i < |parts| :: parts[i] == emitted[i].text != ""
    }

    constructor (executionId: string)
      ensures Valid() && emitted == [] && fallback == "lc-" + executionId + "-assistant"
    {
      fallback := "lc-" + executionId + "-assistant";
      byId, parts, emitted := map[], [], [];
    }

    /** _emit_message_chunk. */
    method Emit(chunk: Chunk) returns (delta: string)
      requires Valid()
      modifies this
      ensures Valid()
      ensures var id := MessageId(chunk, fallback);
              var previous := Appended(old(emitted), id);
              && delta == (if chunk.Fragment? then MessageTextDelta(previous, chunk.text) else "")
              && emitted == old(emitted) + if delta == "" then [] else [Delta(id, delta)]
    {
      hide MessageTextDelta, Appended;
      EmptyDelta(Appended(emitted, MessageId(chunk, fallback)));
      if chunk.ToolChunk? || chunk.text == "" {
        return "";
      }
      var id := if chunk.id != "" then chunk.id else fallback;
      var previous := if id in byId then byId[id] else "";
      delta := MessageTextDelta(previous, chunk.text);
      if delta == "" {
        return "";
      }
      forall other {
        AppendedSnoc(emitted, Delta(id, delta), other);
      }
      byId := byId[id := previous + delta];
      parts := parts + [delta];
      emitted := emitted + [Delta(id, delta)];
    }
  }

  /** However the messages of a run interleave, each one is shown as if its chunks had come alone. */
  method EmitAll(executionId: string, chunks: seq<Chunk>) returns (emitter: ChunkEmitter)
    ensures forall id :: Appended(emitter.emitted, id) == Shown(FragmentsOf(chunks, id, emitter.fallback))
  {
    hide MessageTextDelta, MessageId, Shown, FragmentsOf, Appended;
    emitter := new ChunkEmitter(executionId);
    assert forall id :: Appended(emitter.emitted, id) == Shown(FragmentsOf(chunks[..0], id, emitter.fallback)) by {
      forall id {
        NothingShown(id, emitter.fallback);
      }
      assert chunks[..0] == [];
    }
    for i := 0 to |chunks|
      invariant fresh(emitter) && emitter.Valid()
      invariant forall id :: Appended(emitter.emitted, id) == Shown(FragmentsOf(chunks[..i], id, emitter.fallback))
    {
      ghost var before := emitter.emitted;
      var delta := emitter.Emit(chunks[i]);
      forall id ensures Appended(emitter.emitted, id) == Shown(FragmentsOf(chunks[..i + 1], id, emitter.fallback)) {
        OneMore(before, chunks[..i], chunks[i], id, emitter.fallback);
        assert chunks[..i + 1] == chunks[..i] + [chunks[i]];
      }
    }
    assert chunks[..|chunks|] == chunks;
  }

  lemma {:induction false} ShownSnoc(chunks: seq<string>, chunk: string)
    ensures Shown(chunks + [chunk]) == Shown(chunks) + MessageTextDelta(Shown(chunks), chunk)
  {
    hide MessageTextDelta;
    assert (chunks + [chunk])[..|chunks|] == chunks;
  }

  lemma {:induction false} FragmentsSnoc(chunks: seq<Chunk>, chunk: Chunk, id: string, fallback: string)
    ensures FragmentsOf(chunks + [chunk], id, fallback)
         == if chunk.Fragment? && chunk.text != "" && MessageId(chunk, fallback) == id
            then FragmentsOf(chunks, id, fallback) + [chunk.text] else FragmentsOf(chunks, id, fallback)
  {
    hide MessageId;
    assert (chunks + [chunk])[..|chunks|] == chunks;
  }

  lemma OneMore(deltas: seq<Delta>, chunks: seq<Chunk>, chunk: Chunk, id: string, fallback: string)
    requires Appended(deltas, id) == Shown(FragmentsOf(chunks, id, fallback))
    ensures var target := MessageId(chunk, fallback);
            var delta := if chunk.Fragment? then MessageTextDelta(Appended(deltas, target), chunk.text) else "";
            var more := deltas + if delta == "" then [] else [Delta(target, delta)];
            Appended(more, id) == Shown(FragmentsOf(chunks + [chunk], id, fallback))
  {
    hide MessageTextDelta, MessageId, Shown, FragmentsOf, Appended;
    var target := MessageId(chunk, fallback);
    FragmentsSnoc(chunks, chunk, id, fallback);
    assert deltas + [] == deltas;
    if chunk.Fragment? {
      var delta := MessageTextDelta(Appended(deltas, target), chunk.text);
      AppendedSnoc(deltas, Delta(target, delta), id);
      ShownSnoc(FragmentsOf(chunks, id, fallback), chunk.text);
      EmptyDelta(Appended(deltas, target));
      assert Appended(deltas, id) + "" == Appended(deltas, id);
    }
  }

  lemma {:induction false} NothingShown(id: string, fallback: string)
    ensures Appended([], id) == Shown(FragmentsOf([], id, fallback))
  {
  }

  lemma EmptyDelta(previous: string)
    ensures MessageTextDelta(previous, "") == ""
  {
  }
}
