/** The fair round-robin merge of per-platform hotspot lists. */
module FairMerge {
  import opened Arithmetic
  import opened Wrappers

  /** Field values that are only copied or compared. */
  type Token = nat

  /** One hotspot; `signature` stands for the hash of its canonical URL or title. */
  datatype Item = Item(
    signature: Token, sourceId: Option<Token>, platform: Option<Token>, rank: Option<nat>,
    summary: string, details: Token)

  /** Entries of the platform lists; None is a value that is not a dict. */
  type Raw = Option<Item>
  type Lists = seq<seq<Raw>>

  /** Where a merged item was seen. */
  datatype Source = Source(sourceId: Option<Token>, platform: Option<Token>, rank: Option<nat>)

  datatype Entry = Entry(
    item: Item, summary: string, platforms: seq<Source>, platformRank: Option<nat>, aggregateRank: nat)

  const MAX_TOTAL_ITEMS := 200

  function Min(a: int, b: int): int {
    if a < b then a else b
  }

  function SourceOf(item: Item): Source {
    Source(item.sourceId, item.platform, item.rank)
  }

  predicate SameSource(a: Source, b: Source) {
    a.sourceId == b.sourceId && a.platform == b.platform
  }

  // ---------------------------------------------------------------- what is merged: a trace of picks

  /** A turn: step `step` of round `round`. */
  datatype Turn = Turn(round: nat, step: nat)

  predicate Before(a: Turn, b: Turn) {
    a.round < b.round || (a.round == b.round && a.step < b.step)
  }

  /** Item `index` of list `platform`, read in turn `turn`. */
  datatype Pick = Pick(platform: nat, index: nat, turn: Turn)

  ghost predicate InRange(lists: Lists, t: seq<Pick>) {
    forall i | 0 <= i < |t| :: t[i].platform < |lists| && t[i].index < |lists[t[i].platform]|
  }

  function RawAt(lists: Lists, p: Pick): Raw
    requires p.platform < |lists| && p.index < |lists[p.platform]|
  {
    lists[p.platform][p.index]
  }

  /** How many items of list `p` the trace has read. */
  function Reads(t: seq<Pick>, p: nat): nat {
    if t == [] then 0
    else Reads(t[..|t| - 1], p) + if t[|t| - 1].platform == p then 1 else 0
  }

  /** Every list is read front to back, without skipping or repeating. */
  ghost predicate ReadsInOrder(lists: Lists, t: seq<Pick>) {
    InRange(lists, t) && forall i | 0 <= i < |t| :: t[i].index == Reads(t[..i], t[i].platform)
  }

  ghost predicate Seen(lists: Lists, t: seq<Pick>, signature: Token)
    requires InRange(lists, t)
  {
    exists i | 0 <= i < |t| :: RawAt(lists, t[i]).Some? && RawAt(lists, t[i]).value.signature == signature
  }

  /** Pick `i` is the first of its signature, so it becomes an entry of the result. */
  ghost predicate Fresh(lists: Lists, t: seq<Pick>, i: nat)
    requires InRange(lists, t) && i < |t|
  {
    RawAt(lists, t[i]).Some? && !Seen(lists, t[..i], RawAt(lists, t[i]).value.signature)
  }

  /** How many entries list `p` contributed first. */
  ghost function Accepted(lists: Lists, t: seq<Pick>, p: nat): nat
    requires InRange(lists, t)
  {
    if t == [] then 0
    else Accepted(lists, t[..|t| - 1], p)
         + if t[|t| - 1].platform == p && Fresh(lists, t, |t| - 1) then 1 else 0
  }

  ghost predicate Unread(lists: Lists, t: seq<Pick>, p: nat)
    requires p < |lists|
  {
    Reads(t, p) < |lists[p]|
  }

  /** No list falls more than one accepted item behind while it still has unread items. */
  ghost predicate Fair(lists: Lists, t: seq<Pick>)
    requires InRange(lists, t)
  {
    forall p, q | 0 <= p < |lists| && 0 <= q < |lists| && Unread(lists, t, p) ::
      Accepted(lists, t, q) <= Accepted(lists, t, p) + 1
  }

  /** The list a round starts with: each round starts one list further. */
  function StartOffset(round: nat, n: nat): (start: nat)
    requires n > 0
    ensures start < n
  {
    round % n
  }

  function PlatformIndex(start: nat, step: nat, n: nat): (p: nat)
    requires n > 0
    ensures p < n
  {
    (start + step) % n
  }

  /** The list whose turn it is. */
  function TurnPlatform(turn: Turn, n: nat): (p: nat)
    requires n > 0
    ensures p < n
  {
    PlatformIndex(StartOffset(turn.round, n), turn.step, n)
  }

  /** Round 0 starts with the first list and each round one list further, wrapping around at the end. */
  predicate Rotating(lists: Lists, t: seq<Pick>) {
    forall i | 0 <= i < |t| :: Rotates(t[i], |lists|)
  }

  predicate Rotates(x: Pick, n: nat) {
    x.turn.step < n && x.platform == (x.turn.round + x.turn.step) % n
  }

  /** A list that is read in a round has contributed one entry in each round before it. */
  ghost predicate OneEachRound(lists: Lists, t: seq<Pick>)
    requires InRange(lists, t)
  {
    forall i | 0 <= i < |t| :: Accepted(lists, t[..i], t[i].platform) == t[i].turn.round
  }

  /** Turns are taken in order, and yield at most one entry, the last thing they read. */
  ghost predicate TurnsInOrder(lists: Lists, t: seq<Pick>)
    requires InRange(lists, t)
  {
    && (forall i, j | 0 <= i < j < |t| :: t[i].turn == t[j].turn || Before(t[i].turn, t[j].turn))
    && (forall i, j | 0 <= i < j < |t| && Fresh(lists, t, i) :: Before(t[i].turn, t[j].turn))
  }

  ghost predicate RoundRobin(lists: Lists, t: seq<Pick>)
    requires InRange(lists, t)
  {
    Rotating(lists, t) && OneEachRound(lists, t) && TurnsInOrder(lists, t)
  }

  // ---------------------------------------------------------------- what the trace amounts to

  function Find(entries: seq<Entry>, signature: Token): (k: Option<nat>)
    ensures k.Some? ==> k.value < |entries| && entries[k.value].item.signature == signature
    ensures k.None? ==> forall i | 0 <= i < |entries| :: entries[i].item.signature != signature
  {
    if entries == [] then None
    else if entries[|entries| - 1].item.signature == signature then Some(|entries| - 1)
    else Find(entries[..|entries| - 1], signature)
  }

  /** An entry met again on another list. */
  function Absorb(e: Entry, item: Item): Entry {
    e.(platforms := if exists k | 0 <= k < |e.platforms| :: SameSource(e.platforms[k], SourceOf(item))
                    then e.platforms else e.platforms + [SourceOf(item)],
       summary := if |item.summary| > |e.summary| then item.summary else e.summary)
  }

  function NewEntry(item: Item): Entry {
    Entry(item, item.summary, [SourceOf(item)], item.rank, 0)
  }

  function Merge(entries: seq<Entry>, raw: Raw): seq<Entry> {
    if raw.None? then entries
    else
      var k := Find(entries, raw.value.signature);
      if k.Some? then entries[k.value := Absorb(entries[k.value], raw.value)]
      else entries + [NewEntry(raw.value)]
  }

  ghost function Collapse(lists: Lists, t: seq<Pick>): seq<Entry>
    requires InRange(lists, t)
  {
    if t == [] then [] else Merge(Collapse(lists, t[..|t| - 1]), RawAt(lists, t[|t| - 1]))
  }

  function Ranked(entries: seq<Entry>): (ranked: seq<Entry>)
    ensures |ranked| == |entries|
    ensures forall i | 0 <= i < |entries| :: ranked[i] == entries[i].(aggregateRank := i + 1)
  {
    seq(|entries|, i requires 0 <= i < |entries| => entries[i].(aggregateRank := i + 1))
  }

  // ---------------------------------------------------------------- lemmas about traces

  lemma {:induction false} ReadsExtend(lists: Lists, t: seq<Pick>, x: Pick)
    requires ReadsInOrder(lists, t)
    requires x.platform < |lists| && x.index == Reads(t, x.platform) < |lists[x.platform]|
    ensures ReadsInOrder(lists, t + [x])
    ensures forall p :: Reads(t + [x], p) == Reads(t, p) + if p == x.platform then 1 else 0
  {
    assert (t + [x])[..|t|] == t;
    forall i | 0 <= i < |t| ensures (t + [x])[..i] == t[..i] {
    }
  }

  lemma FreshExtends(lists: Lists, t: seq<Pick>, x: Pick)
    requires InRange(lists, t + [x]) && InRange(lists, t)
    requires x.platform < |lists| && x.index < |lists[x.platform]|
    ensures Fresh(lists, t + [x], |t|) <==>
              RawAt(lists, x).Some? && !Seen(lists, t, RawAt(lists, x).value.signature)
    ensures forall i | 0 <= i < |t| :: Fresh(lists, t + [x], i) <==> Fresh(lists, t, i)
  {
    assert (t + [x])[..|t|] == t;
    forall i | 0 <= i < |t| ensures (t + [x])[..i] == t[..i] {
    }
  }

  lemma {:induction false} CountsExtend(lists: Lists, t: seq<Pick>, x: Pick)
    requires InRange(lists, t) && InRange(lists, t + [x])
    requires x.platform < |lists| && x.index < |lists[x.platform]|
    ensures forall p :: Accepted(lists, t + [x], p)
                        == Accepted(lists, t, p) + if p == x.platform && Fresh(lists, t + [x], |t|) then 1 else 0
    ensures Collapse(lists, t + [x]) == Merge(Collapse(lists, t), RawAt(lists, x))
  {
    assert (t + [x])[..|t|] == t;
  }

  lemma {:induction false} FindMerged(entries: seq<Entry>, raw: Raw, s: Token)
    ensures Find(Merge(entries, raw), s).Some?
            <==> Find(entries, s).Some? || (raw.Some? && raw.value.signature == s)
  {
    var merged := Merge(entries, raw);
    assert forall i | 0 <= i < |entries| :: merged[i].item == entries[i].item;
    if Find(entries, s).Some? {
      assert merged[Find(entries, s).value].item.signature == s;
    }
    if raw.Some? && raw.value.signature == s && Find(entries, s).None? {
      assert merged[|entries|].item.signature == s;
    }
    if Find(merged, s).Some? && Find(merged, s).value < |entries| {
      assert entries[Find(merged, s).value].item.signature == s;
    }
  }

  /** The entries are exactly the signatures seen, each once. */
  lemma {:induction false} CollapseSignatures(lists: Lists, t: seq<Pick>)
    requires InRange(lists, t)
    ensures forall s :: Seen(lists, t, s) <==> Find(Collapse(lists, t), s).Some?
    ensures forall i, j | 0 <= i < j < |Collapse(lists, t)| ::
              Collapse(lists, t)[i].item.signature != Collapse(lists, t)[j].item.signature
  {
    if t != [] {
      var n := |t| - 1;
      CollapseSignatures(lists, t[..n]);
      forall s ensures Seen(lists, t, s) <==> Find(Collapse(lists, t), s).Some? {
        SeenStep(lists, t, s);
        FindMerged(Collapse(lists, t[..n]), RawAt(lists, t[n]), s);
      }
    }
  }

  lemma SeenStep(lists: Lists, t: seq<Pick>, s: Token)
    requires InRange(lists, t) && t != []
    ensures Seen(lists, t, s) <==>
              Seen(lists, t[..|t| - 1], s)
              || (RawAt(lists, t[|t| - 1]).Some? && RawAt(lists, t[|t| - 1]).value.signature == s)
  {
    if Seen(lists, t, s) {
      var i :| 0 <= i < |t| && RawAt(lists, t[i]).Some? && RawAt(lists, t[i]).value.signature == s;
      if i < |t| - 1 {
        assert t[..|t| - 1][i] == t[i];
      }
    }
    if Seen(lists, t[..|t| - 1], s) {
      var i :| 0 <= i < |t| - 1 && RawAt(lists, t[..|t| - 1][i]).Some?
               && RawAt(lists, t[..|t| - 1][i]).value.signature == s;
      assert t[i] == t[..|t| - 1][i];
    }
  }

  // ---------------------------------------------------------------- what an entry records

  /** The trace reads `item` at some pick. */
  ghost predicate Consumed(lists: Lists, t: seq<Pick>, item: Item)
    requires InRange(lists, t)
  {
    exists i | 0 <= i < |t| :: RawAt(lists, t[i]) == Some(item)
  }

  ghost predicate HasSource(e: Entry, source: Source) {
    exists k | 0 <= k < |e.platforms| ::
      e.platforms[k].sourceId == source.sourceId && e.platforms[k].platform == source.platform
  }

  ghost predicate ConsumedAs(lists: Lists, t: seq<Pick>, item: Item, signature: Token)
    requires InRange(lists, t)
  {
    Consumed(lists, t, item) && item.signature == signature
  }

  /** The summary is a longest one consumed for the entry's signature. */
  ghost predicate LongestSummary(lists: Lists, t: seq<Pick>, e: Entry)
    requires InRange(lists, t)
  {
    && (exists item :: ConsumedAs(lists, t, item, e.item.signature) && item.summary == e.summary)
    && (forall item | ConsumedAs(lists, t, item, e.item.signature) :: |item.summary| <= |e.summary|)
  }

  ghost predicate Witnessed(lists: Lists, t: seq<Pick>, source: Source, signature: Token)
    requires InRange(lists, t)
  {
    exists item :: ConsumedAs(lists, t, item, signature) && source == SourceOf(item)
  }

  /** The provenance is the duplicate-free set of sources consumed for the entry's signature. */
  ghost predicate ExactProvenance(lists: Lists, t: seq<Pick>, e: Entry)
    requires InRange(lists, t)
  {
    && (forall item | ConsumedAs(lists, t, item, e.item.signature) :: HasSource(e, SourceOf(item)))
    && (forall k | 0 <= k < |e.platforms| :: Witnessed(lists, t, e.platforms[k], e.item.signature))
    && (forall k, l | 0 <= k < l < |e.platforms| ::
          e.platforms[k].sourceId != e.platforms[l].sourceId || e.platforms[k].platform != e.platforms[l].platform)
  }

  ghost predicate Summarises(lists: Lists, t: seq<Pick>, e: Entry)
    requires InRange(lists, t)
  {
    && Consumed(lists, t, e.item) && e.platformRank == e.item.rank
    && LongestSummary(lists, t, e) && ExactProvenance(lists, t, e)
  }

  lemma ConsumedStep(lists: Lists, t: seq<Pick>, item: Item)
    requires InRange(lists, t) && t != []
    ensures Consumed(lists, t, item) <==>
              Consumed(lists, t[..|t| - 1], item) || RawAt(lists, t[|t| - 1]) == Some(item)
  {
    if Consumed(lists, t[..|t| - 1], item) {
      var i :| 0 <= i < |t| - 1 && RawAt(lists, t[..|t| - 1][i]) == Some(item);
      assert t[i] == t[..|t| - 1][i];
    }
    if Consumed(lists, t, item) {
      var i :| 0 <= i < |t| && RawAt(lists, t[i]) == Some(item);
      if i < |t| - 1 {
        assert t[..|t| - 1][i] == t[i];
      }
    }
  }

  lemma ConsumedIsSeen(lists: Lists, t: seq<Pick>, item: Item)
    requires InRange(lists, t)
    ensures Consumed(lists, t, item) ==> Seen(lists, t, item.signature)
  {
  }

  /** An entry keeps summarising when an item of another signature, or none, is read. */
  lemma SummaryKept(lists: Lists, t: seq<Pick>, e: Entry)
    requires InRange(lists, t) && t != [] && Summarises(lists, t[..|t| - 1], e)
    requires RawAt(lists, t[|t| - 1]).Some? ==> RawAt(lists, t[|t| - 1]).value.signature != e.item.signature
    ensures Summarises(lists, t, e)
  {
    forall item ensures ConsumedAs(lists, t, item, e.item.signature)
                        <==> ConsumedAs(lists, t[..|t| - 1], item, e.item.signature)
    {
      ConsumedStep(lists, t, item);
    }
    ConsumedStep(lists, t, e.item);
    hide Consumed, ConsumedAs, HasSource, SameSource;
    assert LongestSummary(lists, t, e);
    hide LongestSummary;
    assert ExactProvenance(lists, t, e);
  }

  lemma ConsumedAsStep(lists: Lists, t: seq<Pick>, item: Item)
    requires InRange(lists, t) && t != [] && RawAt(lists, t[|t| - 1]) == Some(item)
    ensures forall x :: ConsumedAs(lists, t, x, item.signature)
                        <==> ConsumedAs(lists, t[..|t| - 1], x, item.signature) || x == item
  {
    forall x ensures ConsumedAs(lists, t, x, item.signature)
                     <==> ConsumedAs(lists, t[..|t| - 1], x, item.signature) || x == item
    {
      hide Consumed;
      ConsumedStep(lists, t, x);
    }
  }

  lemma LongestAbsorbs(lists: Lists, t: seq<Pick>, e: Entry, item: Item)
    requires InRange(lists, t) && t != [] && LongestSummary(lists, t[..|t| - 1], e)
    requires forall x :: ConsumedAs(lists, t, x, e.item.signature)
                         <==> ConsumedAs(lists, t[..|t| - 1], x, e.item.signature) || x == item
    ensures LongestSummary(lists, t, Absorb(e, item))
  {
    assert ConsumedAs(lists, t, item, e.item.signature);
    var x :| ConsumedAs(lists, t[..|t| - 1], x, e.item.signature) && x.summary == e.summary;
    assert ConsumedAs(lists, t, x, e.item.signature);
    assert Absorb(e, item).item == e.item;
    assert Absorb(e, item).summary == if |item.summary| > |e.summary| then item.summary else e.summary;
    hide ConsumedAs, Absorb;
  }

  /** Reading an item of the entry's signature is recorded by `Absorb`. */
  lemma SummaryAbsorbs(lists: Lists, t: seq<Pick>, e: Entry, item: Item)
    requires InRange(lists, t) && t != [] && Summarises(lists, t[..|t| - 1], e)
    requires RawAt(lists, t[|t| - 1]) == Some(item) && item.signature == e.item.signature
    ensures Summarises(lists, t, Absorb(e, item))
  {
    hide Consumed, ConsumedAs, LongestSummary, ExactProvenance;
    ConsumedAsStep(lists, t, item);
    ConsumedStep(lists, t, e.item);
    assert Absorb(e, item).item == e.item && Absorb(e, item).platformRank == e.platformRank;
    hide Absorb, RawAt;
    LongestAbsorbs(lists, t, e, item);
    ProvenanceAbsorbs(lists, t, e, item);
  }

  lemma WitnessKept(lists: Lists, t: seq<Pick>, source: Source, signature: Token)
    requires InRange(lists, t) && t != [] && Witnessed(lists, t[..|t| - 1], source, signature)
    ensures Witnessed(lists, t, source, signature)
  {
    var item :| ConsumedAs(lists, t[..|t| - 1], item, signature) && source == SourceOf(item);
    ConsumedStep(lists, t, item);
  }

  lemma AbsorbAdds(e: Entry, item: Item, source: Source)
    ensures HasSource(Absorb(e, item), source) <==> HasSource(e, source) || SameSource(SourceOf(item), source)
  {
    var e' := Absorb(e, item);
    if HasSource(e, source) {
      var k :| 0 <= k < |e.platforms| && SameSource(e.platforms[k], source);
      assert SameSource(e'.platforms[k], source);
    }
    if !HasSource(e, SourceOf(item)) {
      assert e'.platforms[|e.platforms|] == SourceOf(item);
    }
  }

  lemma ReadIsWitness(lists: Lists, t: seq<Pick>, item: Item, signature: Token)
    requires InRange(lists, t) && ConsumedAs(lists, t, item, signature)
    ensures Witnessed(lists, t, SourceOf(item), signature)
  {
  }

  lemma SourcesAfterAbsorb(lists: Lists, t: seq<Pick>, e: Entry, item: Item, k: nat)
    requires InRange(lists, t) && t != [] && ExactProvenance(lists, t[..|t| - 1], e)
    requires ConsumedAs(lists, t, item, e.item.signature) && k < |Absorb(e, item).platforms|
    ensures Witnessed(lists, t, Absorb(e, item).platforms[k], e.item.signature)
  {
    hide ConsumedAs, Consumed, Witnessed;
    if k < |e.platforms| {
      WitnessKept(lists, t, e.platforms[k], e.item.signature);
    } else {
      ReadIsWitness(lists, t, item, e.item.signature);
    }
  }

  lemma AbsorbStaysDistinct(e: Entry, item: Item)
    requires forall k, l | 0 <= k < l < |e.platforms| :: !SameSource(e.platforms[k], e.platforms[l])
    ensures var p := Absorb(e, item).platforms; forall k, l | 0 <= k < l < |p| :: !SameSource(p[k], p[l])
  {
  }

  lemma AbsorbCovers(lists: Lists, t: seq<Pick>, e: Entry, item: Item, x: Item)
    requires InRange(lists, t) && ExactProvenance(lists, t, e)
    requires x == item || ConsumedAs(lists, t, x, e.item.signature)
    ensures HasSource(Absorb(e, item), SourceOf(x))
  {
    hide ConsumedAs, Witnessed, Absorb, HasSource;
    AbsorbAdds(e, item, SourceOf(x));
  }

  lemma ProvenanceAbsorbs(lists: Lists, t: seq<Pick>, e: Entry, item: Item)
    requires InRange(lists, t) && t != [] && ExactProvenance(lists, t[..|t| - 1], e)
    requires forall x :: ConsumedAs(lists, t, x, e.item.signature)
                         <==> ConsumedAs(lists, t[..|t| - 1], x, e.item.signature) || x == item
    ensures ExactProvenance(lists, t, Absorb(e, item))
  {
    assert ConsumedAs(lists, t, item, e.item.signature);
    assert Absorb(e, item).item == e.item;
    AbsorbStaysDistinct(e, item);
    hide ConsumedAs, Witnessed, HasSource, Absorb, SameSource;
    forall x | ConsumedAs(lists, t, x, e.item.signature) ensures HasSource(Absorb(e, item), SourceOf(x)) {
      AbsorbCovers(lists, t[..|t| - 1], e, item, x);
    }
    forall k | 0 <= k < |Absorb(e, item).platforms|
      ensures Witnessed(lists, t, Absorb(e, item).platforms[k], e.item.signature)
    {
      SourcesAfterAbsorb(lists, t, e, item, k);
    }
  }

  lemma SummaryStarts(lists: Lists, t: seq<Pick>, item: Item)
    requires InRange(lists, t) && t != [] && RawAt(lists, t[|t| - 1]) == Some(item)
    requires !Seen(lists, t[..|t| - 1], item.signature)
    ensures Summarises(lists, t, NewEntry(item))
  {
    var e := NewEntry(item);
    forall x ensures ConsumedAs(lists, t, x, item.signature) <==> x == item {
      ConsumedStep(lists, t, x);
      ConsumedIsSeen(lists, t[..|t| - 1], x);
    }
    assert SameSource(e.platforms[0], SourceOf(item));
  }

  lemma {:induction false} MergedEntry(entries: seq<Entry>, raw: Raw, k: nat)
    requires k < |Merge(entries, raw)|
    requires forall i, j | 0 <= i < j < |entries| :: entries[i].item.signature != entries[j].item.signature
    ensures k < |entries| ==>
              Merge(entries, raw)[k] == if raw.Some? && raw.value.signature == entries[k].item.signature
                                        then Absorb(entries[k], raw.value) else entries[k]
    ensures k >= |entries| ==> raw.Some? && Find(entries, raw.value.signature).None?
                               && Merge(entries, raw)[k] == NewEntry(raw.value)
  {
  }

  /** Every entry of the result summarises what was read of its signature. */
  lemma {:induction false} CollapseSummarises(lists: Lists, t: seq<Pick>, k: nat)
    requires InRange(lists, t) && k < |Collapse(lists, t)|
    ensures Summarises(lists, t, Collapse(lists, t)[k])
  {
    var n := |t| - 1;
    var before := Collapse(lists, t[..n]);
    var raw := RawAt(lists, t[n]);
    CollapseSignatures(lists, t[..n]);
    MergedEntry(before, raw, k);
    hide Summarises, Seen, Absorb, NewEntry, Merge, Find;
    if k < |before| {
      CollapseSummarises(lists, t[..n], k);
      if raw.Some? && raw.value.signature == before[k].item.signature {
        SummaryAbsorbs(lists, t, before[k], raw.value);
      } else {
        SummaryKept(lists, t, before[k]);
      }
    } else {
      SummaryStarts(lists, t, raw.value);
    }
  }

  /** Entries first met on one list keep the order of that list. */
  lemma ListOrderKept(lists: Lists, t: seq<Pick>, i: nat, j: nat)
    requires ReadsInOrder(lists, t) && i < j < |t| && t[i].platform == t[j].platform
    ensures t[i].index < t[j].index
  {
    ReadsGrow(t[..j], i, t[i].platform);
    assert t[..j][..i] == t[..i];
  }

  lemma {:induction false} ReadsGrow(t: seq<Pick>, i: nat, p: nat)
    requires i < |t| && t[i].platform == p
    ensures Reads(t[..i], p) < Reads(t, p)
  {
    var n := |t| - 1;
    if i < n {
      ReadsGrow(t[..n], i, p);
      assert t[..n][..i] == t[..i];
    }
  }

  /** The picks that made an entry. */
  ghost function Origins(lists: Lists, t: seq<Pick>): (origins: seq<nat>)
    requires InRange(lists, t)
    ensures forall k | 0 <= k < |origins| :: origins[k] < |t|
  {
    if t == [] then []
    else Origins(lists, t[..|t| - 1]) + if Fresh(lists, t, |t| - 1) then [|t| - 1] else []
  }

  lemma FreshPrefix(lists: Lists, t: seq<Pick>, i: nat)
    requires InRange(lists, t) && i < |t| - 1
    ensures Fresh(lists, t, i) <==> Fresh(lists, t[..|t| - 1], i)
  {
    assert t[..|t| - 1][..i] == t[..i];
  }

  /** Merging keeps every entry's item, and a new item comes last. */
  lemma {:induction false} MergeItems(entries: seq<Entry>, raw: Raw)
    ensures var added := raw.Some? && Find(entries, raw.value.signature).None?;
            var merged := Merge(entries, raw);
            && |merged| == |entries| + (if added then 1 else 0)
            && (forall k | 0 <= k < |entries| :: merged[k].item == entries[k].item)
            && (added ==> merged[|entries|].item == raw.value)
  {
  }

  /** The entries appear in the order of the picks that first met them, one entry a fresh pick. */
  lemma {:induction false} EntriesInOrder(lists: Lists, t: seq<Pick>)
    requires InRange(lists, t)
    ensures |Origins(lists, t)| == |Collapse(lists, t)|
    ensures forall k | 0 <= k < |Origins(lists, t)| ::
              Fresh(lists, t, Origins(lists, t)[k])
              && RawAt(lists, t[Origins(lists, t)[k]]) == Some(Collapse(lists, t)[k].item)
    ensures forall k, l | 0 <= k < l < |Origins(lists, t)| :: Origins(lists, t)[k] < Origins(lists, t)[l]
  {
    if t != [] {
      var n := |t| - 1;
      EntriesInOrder(lists, t[..n]);
      CollapseSignatures(lists, t[..n]);
      forall i | 0 <= i < n ensures Fresh(lists, t, i) <==> Fresh(lists, t[..n], i) {
        FreshPrefix(lists, t, i);
      }
      MergeItems(Collapse(lists, t[..n]), RawAt(lists, t[n]));
      hide Fresh, Seen, Merge, Find;
      assert forall i | 0 <= i < n :: t[..n][i] == t[i];
      assert Fresh(lists, t, n) <==>
             RawAt(lists, t[n]).Some? && Find(Collapse(lists, t[..n]), RawAt(lists, t[n]).value.signature).None?
      by { FreshAtEnd(lists, t); }
    }
  }

  lemma {:induction false} FreshAtEnd(lists: Lists, t: seq<Pick>)
    requires InRange(lists, t) && t != []
    ensures var n := |t| - 1;
            Fresh(lists, t, n) <==>
            RawAt(lists, t[n]).Some? && Find(Collapse(lists, t[..n]), RawAt(lists, t[n]).value.signature).None?
  {
    CollapseSignatures(lists, t[..|t| - 1]);
  }

  /** If every list was read to its end, the result has exactly the signatures of all inputs. */
  lemma {:induction false} CompleteWhenAllRead(lists: Lists, t: seq<Pick>, p: nat, k: nat)
    requires ReadsInOrder(lists, t) && p < |lists| && !Unread(lists, t, p)
    requires k < |lists[p]| && lists[p][k].Some?
    ensures exists j | 0 <= j < |Collapse(lists, t)| ::
              Collapse(lists, t)[j].item.signature == lists[p][k].value.signature
  {
    var i := PickOf(lists, t, p, k);
    assert Seen(lists, t, lists[p][k].value.signature);
    CollapseSignatures(lists, t);
    var j := Find(Collapse(lists, t), lists[p][k].value.signature).value;
  }

  lemma {:induction false} PickOf(lists: Lists, t: seq<Pick>, p: nat, k: nat) returns (i: nat)
    requires ReadsInOrder(lists, t) && k < Reads(t, p)
    ensures i < |t| && t[i].platform == p && t[i].index == k
  {
    var n := |t| - 1;
    if t[n].platform == p && Reads(t[..n], p) == k {
      return n;
    }
    var before := t[..n];
    forall j | 0 <= j < n ensures before[..j] == t[..j] {
    }
    i := PickOf(lists, before, p, k);
  }

  // ---------------------------------------------------------------- the merge

  /** Position of list `p` in the round that starts at list `start`. */
  function Slot(p: nat, start: nat, n: nat): nat
    requires p < n && start < n
  {
    if p >= start then p - start else p + n - start
  }

  lemma SlotInverts(start: nat, step: nat, n: nat)
    requires start < n && step < n
    ensures (start + step) % n < n && Slot((start + step) % n, start, n) == step
    ensures forall p | 0 <= p < n && Slot(p, start, n) == step :: p == (start + step) % n
  {
    if start + step >= n {
      assert (start + step) % n == start + step - n;
    }
  }

  ghost predicate Positions(positions: map<Token, nat>, deduped: seq<Entry>) {
    forall s :: (s in positions <==> Find(deduped, s).Some?)
                && (s in positions ==> Some(positions[s]) == Find(deduped, s))
  }

  /** The variables of the merge after the reads of trace `t`. */
  ghost predicate Merged(lists: Lists, cursors: seq<nat>, positions: map<Token, nat>, deduped: seq<Entry>, t: seq<Pick>)
  {
    && ReadsInOrder(lists, t) && RoundRobin(lists, t)
    && |cursors| == |lists|
    && (forall p | 0 <= p < |lists| :: cursors[p] == Reads(t, p) <= |lists[p]|)
    && deduped == Collapse(lists, t) && Positions(positions, deduped)
  }

  ghost predicate TurnsBefore(t: seq<Pick>, turn: Turn) {
    forall i | 0 <= i < |t| :: Before(t[i].turn, turn)
  }

  /** Within turn `turn` so far: earlier turns are over and nothing was accepted yet. */
  ghost predicate InTurn(lists: Lists, t: seq<Pick>, turn: Turn)
    requires InRange(lists, t)
  {
    && turn.step < |lists| && Accepted(lists, t, TurnPlatform(turn, |lists|)) == turn.round
    && (forall i | 0 <= i < |t| :: t[i].turn == turn || Before(t[i].turn, turn))
    && (forall i | 0 <= i < |t| && Fresh(lists, t, i) :: Before(t[i].turn, turn))
  }

  /** Starting each round one list further means that the list of a turn is the sum of round and step. */
  lemma TurnIsRotated(turn: Turn, n: nat)
    requires turn.step < n
    ensures TurnPlatform(turn, n) == (turn.round + turn.step) % n
  {
    var q, r := turn.round / n, turn.round % n;
    if r + turn.step < n {
      assert turn.round + turn.step == q * n + (r + turn.step);
      DivideExactly(q, n, r + turn.step);
    } else {
      assert turn.round + turn.step == (q + 1) * n + (r + turn.step - n);
      DivideExactly(q + 1, n, r + turn.step - n);
      DivideExactly(1, n, r + turn.step - n);
    }
  }

  lemma {:induction false} OneEachRoundExtends(lists: Lists, t: seq<Pick>, x: Pick)
    requires InRange(lists, t) && InRange(lists, t + [x]) && OneEachRound(lists, t)
    requires Accepted(lists, t, x.platform) == x.turn.round
    ensures OneEachRound(lists, t + [x])
  {
    hide Accepted;
    var longer := t + [x];
    assert longer[..|t|] == t;
    assert forall i | 0 <= i < |t| :: longer[..i] == t[..i] && longer[i] == t[i];
  }

  lemma RoundRobinExtends(lists: Lists, t: seq<Pick>, x: Pick)
    requires ReadsInOrder(lists, t) && ReadsInOrder(lists, t + [x])
    requires RoundRobin(lists, t) && InTurn(lists, t, x.turn)
    requires x.platform < |lists| && x.platform == TurnPlatform(x.turn, |lists|)
    requires forall i | 0 <= i < |t| :: Fresh(lists, t + [x], i) <==> Fresh(lists, t, i)
    ensures RoundRobin(lists, t + [x])
  {
    TurnIsRotated(x.turn, |lists|);
    assert Rotates(x, |lists|);
    hide Rotates;
    hide Fresh, TurnPlatform, Accepted, Reads, OneEachRound, TurnsInOrder, Rotating;
    OneEachRoundExtends(lists, t, x);
    TurnsInOrderExtends(lists, t, x);
    RotatingExtends(lists, t, x);
  }

  lemma RotatingExtends(lists: Lists, t: seq<Pick>, x: Pick)
    requires Rotating(lists, t) && Rotates(x, |lists|)
    ensures Rotating(lists, t + [x])
  {
    hide Rotates;
    var longer := t + [x];
    assert forall i | 0 <= i < |t| :: longer[i] == t[i];
  }

  lemma TurnsInOrderExtends(lists: Lists, t: seq<Pick>, x: Pick)
    requires InRange(lists, t) && InRange(lists, t + [x]) && TurnsInOrder(lists, t) && InTurn(lists, t, x.turn)
    requires forall i | 0 <= i < |t| :: Fresh(lists, t + [x], i) <==> Fresh(lists, t, i)
    ensures TurnsInOrder(lists, t + [x])
  {
    hide Fresh, Accepted, TurnPlatform;
    var longer := t + [x];
    assert forall i | 0 <= i < |t| :: longer[i] == t[i];
  }

  /** One read: skip what is not an item, absorb a known signature, or accept a new entry. */
  method ReadItem(lists: Lists, p: nat, cursors0: seq<nat>, positions0: map<Token, nat>, deduped0: seq<Entry>,
                  ghost t0: seq<Pick>, ghost turn: Turn)
    returns (cursors: seq<nat>, positions: map<Token, nat>, deduped: seq<Entry>, accepted: bool, ghost t: seq<Pick>)
    requires Merged(lists, cursors0, positions0, deduped0, t0)
    requires p < |lists| && p == TurnPlatform(turn, |lists|) && InTurn(lists, t0, turn)
    requires cursors0[p] < |lists[p]|
    ensures cursors == cursors0[p := cursors0[p] + 1] && t == t0 + [Pick(p, cursors0[p], turn)]
    ensures Merged(lists, cursors, positions, deduped, t)
    ensures accepted <==> Fresh(lists, t, |t0|)
    ensures |deduped| == |deduped0| + if accepted then 1 else 0
  {
    ghost var x := Pick(p, cursors0[p], turn);
    t := t0 + [x];
    MergedExtends(lists, cursors0, positions0, deduped0, t0, x);
    hide Merged, Collapse, Fresh, Seen, InTurn, RoundRobin, Find;
    var raw := lists[p][cursors0[p]];
    cursors, positions, deduped, accepted := cursors0[p := cursors0[p] + 1], positions0, deduped0, false;
    if raw.Some? {
      var item := raw.value;
      if item.signature in positions {
        var k := positions[item.signature];
        deduped := deduped[k := Absorb(deduped[k], item)];
      } else {
        positions := positions[item.signature := |deduped|];
        deduped := deduped + [NewEntry(item)];
        accepted := true;
      }
    }
  }

  /** The index of known signatures after reading `raw`. */
  function Indexed(positions: map<Token, nat>, deduped: seq<Entry>, raw: Raw): map<Token, nat> {
    if raw.Some? && raw.value.signature !in positions then positions[raw.value.signature := |deduped|] else positions
  }

  lemma IndexedFollows(positions: map<Token, nat>, deduped: seq<Entry>, raw: Raw)
    requires Positions(positions, deduped)
    ensures Positions(Indexed(positions, deduped, raw), Merge(deduped, raw))
  {
    if raw.Some? && raw.value.signature in positions {
      PositionsKept(positions, deduped, positions[raw.value.signature], raw.value);
    }
  }

  lemma {:induction false} FreshIffUnindexed(lists: Lists, positions: map<Token, nat>, t: seq<Pick>, x: Pick)
    requires InRange(lists, t + [x]) && InRange(lists, t) && Positions(positions, Collapse(lists, t))
    requires x.platform < |lists| && x.index < |lists[x.platform]|
    ensures Fresh(lists, t + [x], |t|) <==> RawAt(lists, x).Some? && RawAt(lists, x).value.signature !in positions
  {
    FreshExtends(lists, t, x);
    CollapseSignatures(lists, t);
  }

  lemma InOrderIsInRange(lists: Lists, t: seq<Pick>)
    requires ReadsInOrder(lists, t)
    ensures InRange(lists, t)
  {
  }

  /** Reading the next item of list `x.platform` keeps the variables of the merge in step with the trace. */
  lemma {:induction false} MergedExtends(lists: Lists, cursors: seq<nat>, positions: map<Token, nat>,
                                         deduped: seq<Entry>,
                      t: seq<Pick>, x: Pick)
    requires Merged(lists, cursors, positions, deduped, t) && InTurn(lists, t, x.turn)
    requires x.platform < |lists| && x.platform == TurnPlatform(x.turn, |lists|)
    requires x.index == cursors[x.platform] < |lists[x.platform]|
    ensures var raw := RawAt(lists, x);
            && Merged(lists, cursors[x.platform := x.index + 1], Indexed(positions, deduped, raw),
                      Merge(deduped, raw), t + [x])
            && (Fresh(lists, t + [x], |t|) <==> raw.Some? && raw.value.signature !in positions)
            && (forall s :: s in positions ==> Find(deduped, s) == Some(positions[s]) && positions[s] < |deduped|)
            && (raw.Some? && raw.value.signature !in positions ==> Find(deduped, raw.value.signature).None?)
  {
    hide Fresh, Seen, Accepted, Reads, TurnPlatform, Merge, ReadsInOrder, Collapse;
    hide Rotating, OneEachRound, TurnsInOrder;
    ReadsExtend(lists, t, x);
    InOrderIsInRange(lists, t);
    InOrderIsInRange(lists, t + [x]);
    FreshExtends(lists, t, x);
    RoundRobinExtends(lists, t, x);
    hide InTurn, RoundRobin, InRange;
    FreshIffUnindexed(lists, positions, t, x);
    IndexedFollows(positions, deduped, RawAt(lists, x));
    assert Collapse(lists, t + [x]) == Merge(deduped, RawAt(lists, x)) by {
      CountsExtend(lists, t, x);
    }
    hide Indexed;
    assert forall s :: s in positions ==> Find(deduped, s) == Some(positions[s]);
    hide Positions;
  }

  lemma PositionsKept(positions: map<Token, nat>, deduped: seq<Entry>, k: nat, item: Item)
    requires Positions(positions, deduped) && k < |deduped|
    ensures Positions(positions, deduped[k := Absorb(deduped[k], item)])
  {
    forall s ensures Find(deduped[k := Absorb(deduped[k], item)], s) == Find(deduped, s) {
      FindIgnoresContent(deduped, deduped[k := Absorb(deduped[k], item)], s);
    }
  }

  lemma {:induction false} FindIgnoresContent(a: seq<Entry>, b: seq<Entry>, s: Token)
    requires |a| == |b| && forall i | 0 <= i < |a| :: a[i].item == b[i].item
    ensures Find(a, s) == Find(b, s)
  {
    if a != [] {
      FindIgnoresContent(a[..|a| - 1], b[..|b| - 1], s);
    }
  }

  /** Between traces `t` and `t'` only list `p` was read, and `gained` entries were accepted. */
  ghost predicate OnlyRead(lists: Lists, t: seq<Pick>, t': seq<Pick>, p: nat, gained: nat)
    requires InRange(lists, t) && InRange(lists, t')
  {
    && (forall q | q != p :: Reads(t', q) == Reads(t, q) && Accepted(lists, t', q) == Accepted(lists, t, q))
    && Reads(t', p) >= Reads(t, p) && (t' == t || Reads(t', p) > Reads(t, p))
    && Accepted(lists, t', p) == Accepted(lists, t, p) + gained
  }

  lemma {:induction false} OnlyReadExtends(lists: Lists, t0: seq<Pick>, t: seq<Pick>, x: Pick)
    requires InRange(lists, t0) && ReadsInOrder(lists, t) && OnlyRead(lists, t0, t, x.platform, 0)
    requires x.platform < |lists| && x.index == Reads(t, x.platform) < |lists[x.platform]|
    ensures ReadsInOrder(lists, t + [x])
    ensures OnlyRead(lists, t0, t + [x], x.platform, if Fresh(lists, t + [x], |t|) then 1 else 0)
  {
    ReadsExtend(lists, t, x);
    CountsExtend(lists, t, x);
    hide Fresh, ReadsInOrder, Reads, Accepted, Collapse;
  }

  lemma InTurnExtends(lists: Lists, t: seq<Pick>, x: Pick)
    requires InRange(lists, t) && InRange(lists, t + [x]) && InTurn(lists, t, x.turn)
    requires x.platform < |lists| && x.index < |lists[x.platform]|
    ensures TurnsBefore(t + [x], Turn(x.turn.round, x.turn.step + 1))
    ensures !Fresh(lists, t + [x], |t|) ==> InTurn(lists, t + [x], x.turn)
  {
    FreshExtends(lists, t, x);
    CountsExtend(lists, t, x);
    hide Fresh, Accepted, Collapse;
  }

  /** What one turn of list `p` adds to the trace: it accepts one entry, or the list is exhausted. */
  ghost predicate TurnTaken(lists: Lists, t: seq<Pick>, t': seq<Pick>, p: nat)
    requires InRange(lists, t) && InRange(lists, t') && p < |lists|
  {
    && (OnlyRead(lists, t, t', p, 1) || (OnlyRead(lists, t, t', p, 0) && !Unread(lists, t', p)))
    && (Unread(lists, t, p) ==> t' != t)
  }

  method ServeTurn(lists: Lists, p: nat, cursors0: seq<nat>, positions0: map<Token, nat>, deduped0: seq<Entry>,
                   ghost t0: seq<Pick>, ghost turn: Turn)
    returns (cursors: seq<nat>, positions: map<Token, nat>, deduped: seq<Entry>, ghost t: seq<Pick>)
    requires Merged(lists, cursors0, positions0, deduped0, t0)
    requires p < |lists| && p == TurnPlatform(turn, |lists|) && TurnsBefore(t0, turn) && turn.step < |lists|
    requires InRange(lists, t0) && (Unread(lists, t0, p) ==> Accepted(lists, t0, p) == turn.round)
    ensures Merged(lists, cursors, positions, deduped, t) && TurnTaken(lists, t0, t, p)
    ensures TurnsBefore(t, Turn(turn.round, turn.step + 1))
    ensures |deduped0| <= |deduped| <= |deduped0| + 1
  {
    cursors, positions, deduped, t := cursors0, positions0, deduped0, t0;
    var accepted := false;
    while cursors[p] < |lists[p]|
      invariant Merged(lists, cursors, positions, deduped, t)
      invariant cursors[p] < |lists[p]| ==> InTurn(lists, t, turn)
      invariant OnlyRead(lists, t0, t, p, 0)
      invariant TurnsBefore(t, Turn(turn.round, turn.step + 1))
      invariant |deduped| == |deduped0|
      decreases |lists[p]| - cursors[p]
    {
      hide RoundRobin, Positions, Collapse, Fresh, InTurn, OnlyRead, TurnsBefore, Reads;
      OnlyReadExtends(lists, t0, t, Pick(p, cursors[p], turn));
      InTurnExtends(lists, t, Pick(p, cursors[p], turn));
      cursors, positions, deduped, accepted, t := ReadItem(lists, p, cursors, positions, deduped, t, turn);
      if accepted {
        break;
      }
    }
  }

  // ---------------------------------------------------------------- rounds

  /** Entries accepted per list once `step` turns of round `round` are over. */
  ghost predicate Level(lists: Lists, t: seq<Pick>, round: nat, step: nat)
    requires InRange(lists, t) && |lists| > 0
  {
    forall p | 0 <= p < |lists| ::
      var due := round + if Slot(p, StartOffset(round, |lists|), |lists|) < step then 1 else 0;
      Accepted(lists, t, p) <= due && (Unread(lists, t, p) ==> Accepted(lists, t, p) == due)
  }

  lemma LevelIsFair(lists: Lists, t: seq<Pick>, round: nat, step: nat)
    requires InRange(lists, t) && |lists| > 0 && Level(lists, t, round, step)
    ensures Fair(lists, t)
    ensures step == |lists| ==> Level(lists, t, round + 1, 0)
    ensures step == |lists| && TurnsBefore(t, Turn(round, step)) ==> TurnsBefore(t, Turn(round + 1, 0))
  {
  }

  /** A list that is read in its turn has contributed one entry in each round before. */
  lemma {:induction false} TurnIsDue(lists: Lists, t: seq<Pick>, round: nat, step: nat)
    requires InRange(lists, t) && step < |lists| && Level(lists, t, round, step)
    ensures var p := TurnPlatform(Turn(round, step), |lists|); Unread(lists, t, p) ==> Accepted(lists, t, p) == round
  {
    SlotInverts(StartOffset(round, |lists|), step, |lists|);
    hide Accepted, Reads;
  }

  lemma LevelAdvances(lists: Lists, t: seq<Pick>, t': seq<Pick>, round: nat, step: nat)
    requires InRange(lists, t) && InRange(lists, t') && step < |lists|
    requires Level(lists, t, round, step) && TurnTaken(lists, t, t', TurnPlatform(Turn(round, step), |lists|))
    ensures Level(lists, t', round, step + 1)
  {
    SlotInverts(StartOffset(round, |lists|), step, |lists|);
    hide Accepted, Reads;
  }

  /** How far the round has read every list. */
  ghost predicate RoundReads(lists: Lists, t0: seq<Pick>, t: seq<Pick>, start: nat, step: nat)
    requires start < |lists|
  {
    forall p | 0 <= p < |lists| ::
      && Reads(t, p) >= Reads(t0, p)
      && (Slot(p, start, |lists|) >= step ==> Reads(t, p) == Reads(t0, p))
      && (Slot(p, start, |lists|) < step && Unread(lists, t0, p) ==> Reads(t, p) > Reads(t0, p))
  }

  lemma RoundReadsAdvance(lists: Lists, t0: seq<Pick>, t: seq<Pick>, t': seq<Pick>, start: nat, step: nat)
    requires start < |lists| && step < |lists| && InRange(lists, t) && InRange(lists, t')
    requires RoundReads(lists, t0, t, start, step) && TurnTaken(lists, t, t', (start + step) % |lists|)
    ensures RoundReads(lists, t0, t', start, step + 1)
  {
    SlotInverts(start, step, |lists|);
    hide Accepted, Reads;
  }

  /** One turn of a round is over. */
  lemma StepOver(lists: Lists, t0: seq<Pick>, t: seq<Pick>, t': seq<Pick>, round: nat, step: nat)
    requires lists != [] && step < |lists| && InRange(lists, t) && InRange(lists, t')
    requires Level(lists, t, round, step) && RoundReads(lists, t0, t, StartOffset(round, |lists|), step)
    requires TurnTaken(lists, t, t', TurnPlatform(Turn(round, step), |lists|))
    ensures Level(lists, t', round, step + 1) && RoundReads(lists, t0, t', StartOffset(round, |lists|), step + 1)
  {
    hide Level, RoundReads, TurnTaken, InRange;
    LevelAdvances(lists, t, t', round, step);
    RoundReadsAdvance(lists, t0, t, t', StartOffset(round, |lists|), step);
  }

  lemma RoundBegins(lists: Lists, t: seq<Pick>, start: nat)
    requires start < |lists|
    ensures RoundReads(lists, t, t, start, 0)
  {
    hide Reads;
  }

  lemma MergedInRange(lists: Lists, cursors: seq<nat>, positions: map<Token, nat>, deduped: seq<Entry>, t: seq<Pick>)
    requires Merged(lists, cursors, positions, deduped, t)
    ensures InRange(lists, t)
  {
    hide RoundRobin, Positions, Collapse, Reads;
  }

  /** What the running state says about the trace. */
  lemma {:induction false} MergedFacts(lists: Lists, cursors: seq<nat>, positions: map<Token, nat>,
                                       deduped: seq<Entry>, t: seq<Pick>)
    requires Merged(lists, cursors, positions, deduped, t)
    ensures InRange(lists, t) && ReadsInOrder(lists, t) && RoundRobin(lists, t) && deduped == Collapse(lists, t)
    ensures |cursors| == |lists|
    ensures forall p | 0 <= p < |lists| ::
              Reads(t, p) <= |lists[p]| && (Unread(lists, t, p) <==> cursors[p] < |lists[p]|)
  {
    hide RoundRobin, Positions, Collapse, Reads;
  }

  /** `step` turns of a round are over. */
  ghost predicate MidRound(lists: Lists, cursors: seq<nat>, positions: map<Token, nat>, deduped: seq<Entry>,
                           t0: seq<Pick>, t: seq<Pick>, round: nat, step: nat)
  {
    && lists != [] && InRange(lists, t) && Merged(lists, cursors, positions, deduped, t)
    && Level(lists, t, round, step) && TurnsBefore(t, Turn(round, step))
    && RoundReads(lists, t0, t, StartOffset(round, |lists|), step)
  }

  lemma RoundStarts(lists: Lists, cursors: seq<nat>, positions: map<Token, nat>, deduped: seq<Entry>, t: seq<Pick>,
                    round: nat)
    requires lists != [] && Merged(lists, cursors, positions, deduped, t)
    requires TurnsBefore(t, Turn(round, 0)) && Level(lists, t, round, 0)
    ensures MidRound(lists, cursors, positions, deduped, t, t, round, 0)
  {
    hide Level, TurnsBefore, RoundReads, Merged, InRange, StartOffset;
    RoundBegins(lists, t, StartOffset(round, |lists|));
    MergedInRange(lists, cursors, positions, deduped, t);
  }

  /** The turn of `platformIndex` within a round. */
  method ServeStep(lists: Lists, round: nat, step: nat, platformIndex: nat, cursors0: seq<nat>,
                   positions0: map<Token, nat>, deduped0: seq<Entry>, ghost t0: seq<Pick>, ghost t1: seq<Pick>)
    returns (cursors: seq<nat>, positions: map<Token, nat>, deduped: seq<Entry>, ghost t: seq<Pick>)
    requires step < |lists| && platformIndex == TurnPlatform(Turn(round, step), |lists|)
    requires MidRound(lists, cursors0, positions0, deduped0, t0, t1, round, step)
    ensures MidRound(lists, cursors, positions, deduped, t0, t, round, step + 1)
    ensures |deduped| <= |deduped0| + 1
  {
    hide Level, TurnsBefore, RoundReads, TurnTaken, Merged, InRange, TurnPlatform, StartOffset;
    TurnIsDue(lists, t1, round, step);
    cursors, positions, deduped, t :=
      ServeTurn(lists, platformIndex, cursors0, positions0, deduped0, t1, Turn(round, step));
    MergedInRange(lists, cursors, positions, deduped, t);
    StepOver(lists, t0, t1, t, round, step);
  }

  method ServeRound(lists: Lists, limit: int, round: nat, cursors0: seq<nat>, positions0: map<Token, nat>,
                    deduped0: seq<Entry>, ghost t0: seq<Pick>)
    returns (cursors: seq<nat>, positions: map<Token, nat>, deduped: seq<Entry>, ghost t: seq<Pick>)
    requires lists != [] && |deduped0| < limit && Merged(lists, cursors0, positions0, deduped0, t0)
    requires TurnsBefore(t0, Turn(round, 0)) && Level(lists, t0, round, 0)
    ensures Merged(lists, cursors, positions, deduped, t) && Fair(lists, t) && |deduped| <= limit
    ensures |deduped| < limit ==>
              && Level(lists, t, round + 1, 0) && TurnsBefore(t, Turn(round + 1, 0))
              && RoundReads(lists, t0, t, StartOffset(round, |lists|), |lists|)
  {
    cursors, positions, deduped, t := cursors0, positions0, deduped0, t0;
    RoundStarts(lists, cursors, positions, deduped, t, round);
    var startOffset := StartOffset(round, |lists|);
    hide StartOffset, PlatformIndex, MidRound, Level, TurnsBefore, RoundReads, Fair, Merged, InRange;
    for step := 0 to |lists|
      invariant MidRound(lists, cursors, positions, deduped, t0, t, round, step) && |deduped| < limit
    {
      var platformIndex := PlatformIndex(startOffset, step, |lists|);
      cursors, positions, deduped, t :=
        ServeStep(lists, round, step, platformIndex, cursors, positions, deduped, t0, t);
      if |deduped| >= limit {
        RoundIsFair(lists, cursors, positions, deduped, t0, t, round, step + 1);
        return;
      }
    }
    RoundIsFair(lists, cursors, positions, deduped, t0, t, round, |lists|);
  }

  lemma RoundIsFair(lists: Lists, cursors: seq<nat>, positions: map<Token, nat>, deduped: seq<Entry>,
                    t0: seq<Pick>, t: seq<Pick>, round: nat, step: nat)
    requires MidRound(lists, cursors, positions, deduped, t0, t, round, step)
    ensures Merged(lists, cursors, positions, deduped, t) && InRange(lists, t) && Fair(lists, t)
    ensures lists != [] && RoundReads(lists, t0, t, StartOffset(round, |lists|), step)
    ensures step == |lists| ==> Level(lists, t, round + 1, 0) && TurnsBefore(t, Turn(round + 1, 0))
  {
    hide Level, TurnsBefore, RoundReads, Fair, Merged, InRange, StartOffset;
    LevelIsFair(lists, t, round, step);
  }

  /** Items of the first `n` lists the trace has not read. */
  ghost function Remaining(lists: Lists, t: seq<Pick>, n: nat): int
    requires n <= |lists|
  {
    if n == 0 then 0 else Remaining(lists, t, n - 1) + |lists[n - 1]| - Reads(t, n - 1)
  }

  lemma {:induction false} RemainingShrinks(lists: Lists, t: seq<Pick>, t': seq<Pick>, n: nat)
    requires n <= |lists|
    requires forall p | 0 <= p < n :: Reads(t, p) <= Reads(t', p) <= |lists[p]|
    ensures 0 <= Remaining(lists, t', n) <= Remaining(lists, t, n)
    ensures (exists p | 0 <= p < n :: Reads(t, p) < Reads(t', p)) ==>
              Remaining(lists, t', n) < Remaining(lists, t, n)
  {
    if n > 0 {
      RemainingShrinks(lists, t, t', n - 1);
    }
  }

  /** A whole round with an unread list reads something. */
  lemma {:induction false} RoundShrinks(lists: Lists, t0: seq<Pick>, t: seq<Pick>, start: nat, p: nat)
    requires start < |lists| && p < |lists| && Unread(lists, t0, p)
    requires RoundReads(lists, t0, t, start, |lists|)
    requires forall q | 0 <= q < |lists| :: Reads(t, q) <= |lists[q]|
    ensures 0 <= Remaining(lists, t, |lists|) < Remaining(lists, t0, |lists|)
  {
    assert Slot(p, start, |lists|) < |lists|;
    RemainingShrinks(lists, t0, t, |lists|);
  }

  lemma MergeStarts(lists: Lists, cursors: seq<nat>)
    requires lists != [] && |cursors| == |lists| && forall p | 0 <= p < |lists| :: cursors[p] == 0
    ensures Merged(lists, cursors, map[], [], []) && Level(lists, [], 0, 0) && TurnsBefore([], Turn(0, 0))
  {
  }

  function Limit(maxItems: int, configured: int): int {
    Min(maxItems, Min(configured, MAX_TOTAL_ITEMS))
  }

  lemma {:induction false} NothingMerged(lists: Lists)
    ensures InRange(lists, []) && ReadsInOrder(lists, []) && RoundRobin(lists, []) && Fair(lists, [])
    ensures Collapse(lists, []) == [] && Ranked([]) == []
    ensures forall entries :: |Ranked(entries)| == |entries|
  {
  }

  /**
   _fair_dedupe_and_trim_items. The ghost trace lists every read in order: the result is
   what that trace collapses to, and the trace is fair, rotating and complete.
   */
  method FairDedupeAndTrim(lists: Lists, maxItems: int, configured: int)
    returns (result: seq<Entry>, ghost t: seq<Pick>)
    ensures ReadsInOrder(lists, t) && RoundRobin(lists, t) && Fair(lists, t)
    ensures result == Ranked(Collapse(lists, t))
    ensures maxItems <= 0 || configured <= 0 ==> result == []
    ensures maxItems > 0 && configured > 0 ==> |result| <= maxItems && |result| <= configured && |result| <= 200
    ensures |result| < maxItems && |result| < configured && |result| < 200
        ==> forall p | 0 <= p < |lists| :: !Unread(lists, t, p)
  {
    hide Level, TurnsBefore, RoundReads, RoundRobin, Positions, Collapse, Fair, Reads, Accepted, ReadsInOrder;
    hide StartOffset, Merged, InRange, Unread, Ranked;
    NothingMerged(lists);
    var limit := Limit(maxItems, configured);
    t := [];
    var deduped: seq<Entry> := [];
    var positions: map<Token, nat> := map[];
    if limit <= 0 || lists == [] {
      return [], [];
    }
    var cursors: seq<nat> := seq(|lists|, _ => 0 as nat);
    MergeStarts(lists, cursors);
    MergedFacts(lists, cursors, positions, deduped, t);
    var round := 0;
    while exists p | 0 <= p < |lists| :: cursors[p] < |lists[p]|
      invariant Merged(lists, cursors, positions, deduped, t) && |deduped| < limit
      invariant |cursors| == |lists| && InRange(lists, t)
      invariant Level(lists, t, round, 0) && TurnsBefore(t, Turn(round, 0))
      decreases Remaining(lists, t, |lists|)
    {
      ghost var before := t;
      MergedFacts(lists, cursors, positions, deduped, t);
      ghost var p :| 0 <= p < |lists| && cursors[p] < |lists[p]|;
      assert Unread(lists, t, p);
      cursors, positions, deduped, t := ServeRound(lists, limit, round, cursors, positions, deduped, t);
      MergedFacts(lists, cursors, positions, deduped, t);
      if |deduped| >= limit {
        return Ranked(deduped), t;
      }
      RoundShrinks(lists, before, t, StartOffset(round, |lists|), p);
      round := round + 1;
    }
    MergedFacts(lists, cursors, positions, deduped, t);
    LevelIsFair(lists, t, round, 0);
    result := Ranked(deduped);
  }
}
