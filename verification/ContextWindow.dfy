/**
 Which messages of a conversation are sent to the model: a count limit that prefers recent and relevant
 messages, then a token budget filled from the newest message backwards.
 */
module ContextWindow {
  import opened Sequences
  import opened Wrappers

  /** A message with its text as the estimators see it: lower case, white space collapsed. */
  datatype Message = Message(id: string, text: string)

  /** Four characters a token, rounded up, and at least one token. */
  function EstimateTokens(m: Message): (tokens: nat)
    ensures tokens >= 1 && |m.text| <= 4 * tokens && (tokens > 1 ==> 4 * (tokens - 1) < |m.text|)
  {
    var rounded := (|m.text| + 3) / 4;
    if rounded < 1 then 1 else rounded
  }

  predicate Contains(text: string, token: string) {
    exists k | 0 <= k <= |text| :: token <= text[k..]
  }

  function Score(m: Message, focus: seq<string>): nat {
    if focus == [] then 0 else (if Contains(m.text, focus[0]) then 1 else 0) + Score(m, focus[1..])
  }

  /** A text contains a token that stands somewhere in it. */
  lemma ContainsExactly(text: string, token: string)
    ensures Contains(text, token) <==> exists before, after :: text == before + token + after
  {
    if Contains(text, token) {
      var k :| 0 <= k <= |text| && token <= text[k..];
      assert text == text[..k] + token + text[k + |token|..];
    }
    forall before, after | text == before + token + after ensures Contains(text, token) {
      assert text[|before|..] == token + after;
    }
  }

  lemma {:induction false} ScoreSnoc(m: Message, focus: seq<string>, token: string)
    ensures Score(m, focus + [token]) == Score(m, focus) + if Contains(m.text, token) then 1 else 0
  {
    hide Contains;
    if focus == [] {
      assert ([] + [token])[1..] == [];
    } else {
      assert (focus + [token])[1..] == focus[1..] + [token];
      ScoreSnoc(m, focus[1..], token);
    }
  }

  /** The score of a message is the number of focus tokens that occur in it. */
  lemma {:induction false} ScoreCounts(m: Message, focus: seq<string>)
    ensures Score(m, focus) == |set i | 0 <= i < |focus| && Contains(m.text, focus[i])|
  {
    hide Contains;
    var hits := set i | 0 <= i < |focus| && Contains(m.text, focus[i]);
    if focus != [] {
      var n := |focus| - 1;
      ScoreCounts(m, focus[..n]);
      ScoreSnoc(m, focus[..n], focus[n]);
      assert focus == focus[..n] + [focus[n]];
      var before := set i | 0 <= i < n && Contains(m.text, focus[..n][i]);
      if Contains(m.text, focus[n]) {
        assert hits == before + {n};
      } else {
        assert hits == before;
      }
    }
  }

  // ---------------------------------------------------------------- index lists

  predicate Increasing(picked: seq<nat>) {
    forall i, j | 0 <= i < j < |picked| :: picked[i] < picked[j]
  }

  predicate Within(picked: seq<nat>, bound: nat) {
    forall i | 0 <= i < |picked| :: picked[i] < bound
  }

  function Select<T>(items: seq<T>, picked: seq<nat>): (r: seq<T>)
    requires Within(picked, |items|)
    ensures |r| == |picked| && forall i | 0 <= i < |r| :: r[i] == items[picked[i]]
  {
    seq(|picked|, i requires 0 <= i < |picked| => items[picked[i]])
  }

  // ---------------------------------------------------------------- the token budget

  function Costs(messages: seq<Message>): (costs: seq<nat>)
    ensures |costs| == |messages| && forall i | 0 <= i < |costs| :: costs[i] == EstimateTokens(messages[i]) >= 1
  {
    seq(|messages|, i requires 0 <= i < |messages| => EstimateTokens(messages[i]))
  }

  function Total(costs: seq<nat>, picked: seq<nat>): nat
    requires Within(picked, |costs|)
  {
    if picked == [] then 0 else costs[picked[0]] + Total(costs, picked[1..])
  }

  /** Indexes kept of `from..`: the newest always, an older one if it fits beside the newer ones kept. */
  function Kept(costs: seq<nat>, budget: nat, from: nat): (picked: seq<nat>)
    requires from <= |costs|
    ensures Within(picked, |costs|)
    ensures picked == [] <==> from == |costs|
    decreases |costs| - from
  {
    if from == |costs| then []
    else
      var newer := Kept(costs, budget, from + 1);
      if newer == [] || Total(costs, newer) + costs[from] <= budget then [from] + newer else newer
  }

  lemma {:induction false} TotalCons(costs: seq<nat>, first: nat, picked: seq<nat>)
    requires first < |costs| && Within(picked, |costs|)
    ensures Within([first] + picked, |costs|)
    ensures Total(costs, [first] + picked) == costs[first] + Total(costs, picked)
  {
    assert ([first] + picked)[1..] == picked;
  }

  /** Kept indexes come in order and end with the newest. */
  lemma {:induction false} KeptInOrder(costs: seq<nat>, budget: nat, from: nat)
    requires from < |costs|
    ensures var picked := Kept(costs, budget, from);
            && Increasing(picked) && picked[|picked| - 1] == |costs| - 1
            && forall i | 0 <= i < |picked| :: from <= picked[i]
    decreases |costs| - from
  {
    hide Total;
    if from + 1 < |costs| {
      KeptInOrder(costs, budget, from + 1);
    } else {
      assert Kept(costs, budget, from + 1) == [];
    }
  }

  /** The total fits the budget, unless the newest message alone exceeds it. */
  lemma {:induction false} KeptFits(costs: seq<nat>, budget: nat, from: nat)
    requires from < |costs|
    ensures var picked := Kept(costs, budget, from);
            Total(costs, picked) <= budget || picked == [|costs| - 1]
    decreases |costs| - from
  {
    hide Total;
    var newer := Kept(costs, budget, from + 1);
    TotalCons(costs, from, newer);
    if from + 1 < |costs| {
      KeptFits(costs, budget, from + 1);
    }
  }

  /** No message that was passed over fits beside those kept. */
  lemma {:induction false} KeptIsMaximal(costs: seq<nat>, budget: nat, from: nat, dropped: nat)
    requires from <= dropped < |costs| && dropped !in Kept(costs, budget, from)
    ensures Total(costs, Kept(costs, budget, from)) + costs[dropped] > budget
    decreases |costs| - from
  {
    hide Total;
    var newer := Kept(costs, budget, from + 1);
    assert dropped !in newer;
    TotalCons(costs, from, newer);
    if dropped > from {
      KeptIsMaximal(costs, budget, from + 1, dropped);
    } else {
      assert from in [from] + newer;
    }
  }

  lemma TooBigIsDropped(costs: seq<nat>, budget: nat, from: nat)
    requires from + 1 < |costs| && Total(costs, Kept(costs, budget, from + 1)) + costs[from] > budget
    ensures Kept(costs, budget, from) == Kept(costs, budget, from + 1)
  {
    hide Total;
  }

  lemma FittingIsKept(costs: seq<nat>, budget: nat, from: nat)
    requires from < |costs|
    requires var newer := Kept(costs, budget, from + 1);
             newer == [] || Total(costs, newer) + costs[from] <= budget
    ensures Kept(costs, budget, from) == [from] + Kept(costs, budget, from + 1)
  {
    hide Total;
  }

  /** Once the budget is used up nothing older fits. */
  lemma {:induction false} FullStays(costs: seq<nat>, budget: nat, from: nat, full: nat)
    requires from <= full < |costs| && forall i | 0 <= i < |costs| :: costs[i] >= 1
    requires Total(costs, Kept(costs, budget, full)) >= budget
    ensures Kept(costs, budget, from) == Kept(costs, budget, full)
    decreases full - from
  {
    hide Total, Kept;
    if from < full {
      FullStays(costs, budget, from + 1, full);
      TooBigIsDropped(costs, budget, from);
    }
  }

  lemma SelectCons(messages: seq<Message>, first: nat, picked: seq<nat>)
    requires first < |messages| && Within(picked, |messages|)
    ensures Within([first] + picked, |messages|)
    ensures Select(messages, [first] + picked) == [messages[first]] + Select(messages, picked)
  {
  }

  /** _trim_to_token_budget. */
  method TrimToTokenBudget(messages: seq<Message>, maxTokens: Option<int>) returns (kept: seq<Message>)
    ensures maxTokens.None? ==> kept == messages
    ensures maxTokens.Some? && maxTokens.value <= 0 ==> kept == []
    ensures maxTokens.Some? && maxTokens.value > 0
        ==> kept == Select(messages, Kept(Costs(messages), maxTokens.value, 0))
  {
    hide Select, Costs, EstimateTokens, Increasing, Total, Kept, Within;
    if maxTokens.None? {
      return messages;
    }
    if maxTokens.value <= 0 || messages == [] {
      return [];
    }
    ghost var costs, budget: nat := Costs(messages), maxTokens.value;
    var used, i := 0, |messages|;
    assert Total(costs, []) == 0 by { NothingCosts(costs); }
    kept := [];
    while i > 0
      invariant 0 <= i <= |messages|
      invariant kept == Select(messages, Kept(costs, budget, i))
      invariant used == Total(costs, Kept(costs, budget, i))
    {
      i := i - 1;
      ghost var newer := Kept(costs, budget, i + 1);
      var tokens := EstimateTokens(messages[i]);
      if kept != [] && used + tokens > maxTokens.value {
        TooBigIsDropped(costs, budget, i);
        continue;
      }
      FittingIsKept(costs, budget, i);
      SelectCons(messages, i, newer);
      TotalCons(costs, i, newer);
      kept := [messages[i]] + kept;
      used := used + tokens;
      if used >= maxTokens.value {
        FullStays(costs, budget, 0, i);
        break;
      }
    }
  }

  lemma {:induction false} NothingCosts(costs: seq<nat>)
    ensures Within([], |costs|) && Total(costs, []) == 0
  {
  }

  // ---------------------------------------------------------------- the count limit

  /** A scored message; the most relevant rank first, and of equal ones the newest. */
  datatype Scored = Scored(index: nat, score: nat)

  predicate Outranks(a: Scored, b: Scored) {
    a.score > b.score || (a.score == b.score && a.index > b.index)
  }

  predicate Ranked(s: seq<Scored>) {
    forall i, j | 0 <= i < j < |s| :: !Outranks(s[j], s[i])
  }

  function InsertRanked(s: seq<Scored>, x: Scored): seq<Scored> {
    if s == [] || !Outranks(s[0], x) then [x] + s else [s[0]] + InsertRanked(s[1..], x)
  }

  /** The list sorted by (score, index), highest first. */
  function SortRanked(s: seq<Scored>): seq<Scored> {
    if s == [] then [] else InsertRanked(SortRanked(s[..|s| - 1]), s[|s| - 1])
  }

  lemma {:induction false} InsertKeepsItems(s: seq<Scored>, x: Scored)
    ensures multiset(InsertRanked(s, x)) == multiset(s) + multiset{x}
  {
    if s != [] && Outranks(s[0], x) {
      InsertKeepsItems(s[1..], x);
      assert s == [s[0]] + s[1..];
    }
  }

  lemma {:induction false} InsertKeepsRank(s: seq<Scored>, x: Scored)
    requires Ranked(s)
    ensures Ranked(InsertRanked(s, x))
  {
    if s != [] && Outranks(s[0], x) {
      InsertKeepsRank(s[1..], x);
      InsertKeepsItems(s[1..], x);
      var rest := InsertRanked(s[1..], x);
      forall j | 0 <= j < |rest| ensures !Outranks(rest[j], s[0]) {
        assert rest[j] in multiset(rest);
        assert rest[j] == x || rest[j] in s[1..];
      }
    }
  }

  lemma {:induction false} SortIsRanked(s: seq<Scored>)
    ensures Ranked(SortRanked(s)) && multiset(SortRanked(s)) == multiset(s)
  {
    if s != [] {
      var init, last := s[..|s| - 1], s[|s| - 1];
      SortIsRanked(init);
      InsertKeepsRank(SortRanked(init), last);
      InsertKeepsItems(SortRanked(init), last);
      assert s == init + [last];
    }
  }

  /** The indexes of `keep` below `bound`, in order. */
  function Indexes(keep: set<nat>, bound: nat): seq<nat> {
    if bound == 0 then []
    else Indexes(keep, bound - 1) + if bound - 1 in keep then [bound - 1] else []
  }

  lemma {:induction false} IndexesInOrder(keep: set<nat>, bound: nat)
    ensures Increasing(Indexes(keep, bound))
    ensures forall i :: i in Indexes(keep, bound) <==> i in keep && i < bound
  {
    if bound > 0 {
      IndexesInOrder(keep, bound - 1);
      var before := Indexes(keep, bound - 1);
      forall j | 0 <= j < |before| ensures before[j] < bound - 1 {
        assert before[j] in before;
      }
    }
  }

  lemma {:induction false} IndexesCount(keep: set<nat>, bound: nat)
    ensures |Indexes(keep, bound)| <= |keep|
  {
    if bound > 0 {
      if bound - 1 in keep {
        IndexesCount(keep - {bound - 1}, bound - 1);
        IndexesAgree(keep, keep - {bound - 1}, bound - 1);
      } else {
        IndexesCount(keep, bound - 1);
      }
    }
  }

  lemma {:induction false} IndexesAgree(a: set<nat>, b: set<nat>, bound: nat)
    requires forall i | 0 <= i < bound :: i in a <==> i in b
    ensures Indexes(a, bound) == Indexes(b, bound)
  {
    if bound > 0 {
      IndexesAgree(a, b, bound - 1);
    }
  }

  function ScoredFrom(messages: seq<Message>, focus: seq<string>): seq<Scored> {
    if messages == [] then []
    else
      var n := |messages| - 1;
      ScoredFrom(messages[..n], focus)
      + if Score(messages[n], focus) > 0 then [Scored(n, Score(messages[n], focus))] else []
  }

  lemma {:induction false} ScoredAreRelevant(messages: seq<Message>, focus: seq<string>)
    ensures forall s :: s in ScoredFrom(messages, focus)
                   <==> s.index < |messages| && s.score == Score(messages[s.index], focus) > 0
  {
    if messages != [] {
      var n := |messages| - 1;
      ScoredAreRelevant(messages[..n], focus);
      assert forall i | 0 <= i < n :: messages[..n][i] == messages[i];
    }
  }

  function Range(from: nat, to: nat): (r: set<nat>)
    ensures forall i :: i in r <==> from <= i < to
  {
    if to <= from then {} else Range(from, to - 1) + {to - 1}
  }

  lemma AddedOne(s: set<nat>, x: nat)
    requires x !in s
    ensures |s + {x}| == |s| + 1
  {
  }

  lemma {:induction false} RangeSize(from: nat, to: nat)
    ensures |Range(from, to)| == if from <= to then to - from else 0
  {
    if from < to {
      RangeSize(from, to - 1);
      AddedOne(Range(from, to - 1), to - 1);
    }
  }

  /** How many recent messages stay: half the limit, or more if the setting asks for it. */
  function KeepCount(limit: nat, minRetain: int): (count: nat)
    ensures count >= minRetain && 2 * count + 1 >= limit && (count == minRetain || 2 * count <= limit)
  {
    if minRetain > limit / 2 then minRetain else limit / 2
  }

  /** How many relevant messages stay beside them: what the limit leaves, and at least one. */
  function RelevantCount(limit: nat, keepCount: nat): (count: nat)
    ensures count >= 1 && count + keepCount >= limit && (count == 1 || count + keepCount == limit)
  {
    if limit - keepCount > 1 then limit - keepCount else 1
  }

  function RecentStart(count: nat, keepCount: nat): nat {
    if count > keepCount then count - keepCount else 0
  }

  function IndexSet(s: seq<Scored>): set<nat> {
    set x | x in s :: x.index
  }

  function TopOf(s: seq<Scored>, count: nat): seq<Scored> {
    if |s| <= count then s else s[..count]
  }

  function TopRelevant(messages: seq<Message>, limit: nat, minRetain: int, focus: seq<string>): seq<Scored> {
    TopOf(SortRanked(ScoredFrom(messages, focus)), RelevantCount(limit, KeepCount(limit, minRetain)))
  }

  function KeepSet(messages: seq<Message>, limit: nat, minRetain: int, focus: seq<string>): set<nat> {
    Range(RecentStart(|messages|, KeepCount(limit, minRetain)), |messages|)
    + IndexSet(TopRelevant(messages, limit, minRetain, focus))
  }

  predicate Focused(messages: seq<Message>, limit: nat, focus: seq<string>) {
    |messages| > limit && focus != []
  }

  /** What the count limit leaves, before the token budget. */
  function Candidates(messages: seq<Message>, limit: nat, minRetain: int, focus: seq<string>): seq<nat> {
    Last(Indexes(if Focused(messages, limit, focus) then KeepSet(messages, limit, minRetain, focus)
                   else Range(0, |messages|), |messages|), limit)
  }

  lemma LastInOrder(s: seq<nat>, count: nat)
    requires Increasing(s)
    ensures Increasing(Last(s, count)) && |Last(s, count)| <= count
    ensures forall i | i in Last(s, count) :: i in s
    ensures s != [] && count > 0 ==> Last(s, count) != [] && Last(s, count)[|Last(s, count)| - 1] == s[|s| - 1]
  {
  }

  lemma {:induction false} LastIndex(keep: set<nat>, bound: nat)
    requires bound > 0 && bound - 1 in keep
    ensures Indexes(keep, bound) != [] && Indexes(keep, bound)[|Indexes(keep, bound)| - 1] == bound - 1
  {
  }

  /** At most `limit` messages in order, ending with the latest, provided something recent is kept at all. */
  lemma CandidatesInOrder(messages: seq<Message>, limit: nat, minRetain: int, focus: seq<string>)
    ensures var c := Candidates(messages, limit, minRetain, focus);
            && Increasing(c) && |c| <= limit && Within(c, |messages|)
            && (messages != [] && limit > 0 && (Focused(messages, limit, focus) ==> KeepCount(limit, minRetain) > 0)
                ==> c != [] && c[|c| - 1] == |messages| - 1)
  {
    hide Indexes, Last, Increasing, IndexSet, TopRelevant, KeepCount;
    var keep := if Focused(messages, limit, focus) then KeepSet(messages, limit, minRetain, focus)
                else Range(0, |messages|);
    IndexesInOrder(keep, |messages|);
    LastInOrder(Indexes(keep, |messages|), limit);
    var c := Candidates(messages, limit, minRetain, focus);
    assert forall i | 0 <= i < |c| :: c[i] in c;
    if messages != [] && |messages| - 1 in keep {
      LastIndex(keep, |messages|);
    }
  }

  lemma {:induction false} IndexSetSize(s: seq<Scored>)
    ensures |IndexSet(s)| <= |s|
  {
    if s != [] {
      var init, last := s[..|s| - 1], s[|s| - 1];
      IndexSetSize(init);
      assert s == init + [last];
      assert IndexSet(s) == IndexSet(init) + {last.index};
    }
  }

  /** With room beside the recent messages the count limit drops nothing that was chosen. */
  lemma {:induction false} NothingSlicedOff(messages: seq<Message>, limit: nat, minRetain: int, focus: seq<string>)
    requires |messages| > limit && focus != [] && KeepCount(limit, minRetain) < limit
    ensures Candidates(messages, limit, minRetain, focus)
         == Indexes(KeepSet(messages, limit, minRetain, focus), |messages|)
  {
    hide IndexSet, SortRanked, ScoredFrom, Indexes;
    var top := TopRelevant(messages, limit, minRetain, focus);
    var start := RecentStart(|messages|, KeepCount(limit, minRetain));
    RangeSize(start, |messages|);
    IndexSetSize(top);
    IndexesCount(KeepSet(messages, limit, minRetain, focus), |messages|);
  }

  /** The most recent messages stay, as many as the setting and the limit allow. */
  lemma {:induction false} RecentStay(messages: seq<Message>, limit: nat, minRetain: int, focus: seq<string>, i: nat)
    requires |messages| > limit && focus != [] && i < |messages|
    requires i + KeepCount(limit, minRetain) >= |messages| && i + limit >= |messages|
    ensures i in Candidates(messages, limit, minRetain, focus)
  {
    hide IndexSet, TopRelevant, KeepCount, Indexes, Last, Increasing;
    var keep := KeepSet(messages, limit, minRetain, focus);
    var all := Indexes(keep, |messages|);
    IndexesInOrder(keep, |messages|);
    assert i in all && forall k | 0 <= k < |all| :: all[k] in all;
    TailStays(all, |messages|, limit, i);
  }

  /** Of distinct indexes below `bound` in order, at most `bound - i` lie at or behind `i`. */
  lemma {:induction false} TailStays(all: seq<nat>, bound: nat, limit: nat, i: nat)
    requires Increasing(all) && Within(all, bound) && i in all && i + limit >= bound
    ensures i in Last(all, limit)
  {
    var k :| 0 <= k < |all| && all[k] == i;
    SpreadOut(all, k, |all| - 1);
    if |all| > limit {
      assert Last(all, limit)[k - (|all| - limit)] == i;
    }
  }

  lemma {:induction false} SpreadOut(all: seq<nat>, k: nat, j: nat)
    requires Increasing(all) && k <= j < |all|
    ensures all[j] >= all[k] + (j - k)
  {
    if k < j {
      SpreadOut(all, k, j - 1);
    }
  }

  lemma {:induction false} ScoredOnce(messages: seq<Message>, focus: seq<string>, x: Scored)
    ensures multiset(ScoredFrom(messages, focus))[x] <= 1
  {
    if messages != [] {
      var n := |messages| - 1;
      ScoredOnce(messages[..n], focus, x);
      ScoredAreRelevant(messages[..n], focus);
    }
  }

  lemma OnceMeansDistinct(s: seq<Scored>, i: nat, j: nat)
    requires i < j < |s| && multiset(s)[s[i]] <= 1
    ensures s[i] != s[j]
  {
    assert s == s[..j] + s[j..];
    assert s[i] in s[..j] && s[j] in s[j..];
  }

  /** The ranked list holds every relevant message once. */
  lemma {:induction false} SortedScores(messages: seq<Message>, focus: seq<string>)
    ensures var s := SortRanked(ScoredFrom(messages, focus));
            && (forall i, j | 0 <= i < j < |s| :: Outranks(s[i], s[j]))
            && forall x :: x in s <==> x.index < |messages| && x.score == Score(messages[x.index], focus) > 0
  {
    hide Score, SortRanked, ScoredFrom;
    var scored := ScoredFrom(messages, focus);
    var s := SortRanked(scored);
    SortIsRanked(scored);
    ScoredAreRelevant(messages, focus);
    forall x ensures x in s <==> x in scored {
      assert x in s <==> x in multiset(s);
    }
    forall i, j | 0 <= i < j < |s| ensures Outranks(s[i], s[j]) {
      ScoredOnce(messages, focus, s[i]);
      OnceMeansDistinct(s, i, j);
      assert s[i] in s && s[j] in s;
    }
  }

  /**
   Which older messages stay: only relevant ones, and a relevant one is left out only for the full number of
   messages that are more relevant, or as relevant and newer.
   */
  lemma {:induction false} RelevantStay(messages: seq<Message>, limit: nat, minRetain: int, focus: seq<string>, i: nat)
    requires |messages| > limit && focus != [] && KeepCount(limit, minRetain) < limit
    requires i < RecentStart(|messages|, KeepCount(limit, minRetain))
    ensures var c := Candidates(messages, limit, minRetain, focus);
            var score := Score(messages[i], focus);
            if i in c then score > 0
            else score > 0 ==>
              exists top: seq<Scored> ::
                && |top| == RelevantCount(limit, KeepCount(limit, minRetain))
                && (forall a, b | 0 <= a < b < |top| :: Outranks(top[a], top[b]))
                && forall x | x in top :: x.index in c && Outranks(x, Scored(i, score))
  {
    hide Score, SortRanked, ScoredFrom, Indexes, RelevantCount, KeepCount;
    NothingSlicedOff(messages, limit, minRetain, focus);
    var keep := KeepSet(messages, limit, minRetain, focus);
    IndexesInOrder(keep, |messages|);
    SortedScores(messages, focus);
    var sorted := SortRanked(ScoredFrom(messages, focus));
    var top := TopRelevant(messages, limit, minRetain, focus);
    var me := Scored(i, Score(messages[i], focus));
    forall x | x in top ensures x in sorted && x.index in keep && x.index < |messages| {
    }
    if i !in keep && me.score > 0 {
      assert me in sorted && me !in top;
      var k :| 0 <= k < |sorted| && sorted[k] == me;
      assert |top| <= k;
    }
  }

  predicate MostRelevant(messages: seq<Message>, focus: seq<string>, k: nat)
    requires k < |messages|
  {
    && Score(messages[k], focus) > 0
    && forall i | 0 <= i < |messages| :: Score(messages[i], focus) <= Score(messages[k], focus)
  }

  /** With a focus the latest message survives the count limit exactly if recent ones are kept or it leads them all. */
  lemma LatestKeptExactly(messages: seq<Message>, limit: nat, minRetain: int, focus: seq<string>)
    requires |messages| > limit && focus != [] && limit > 0
    ensures |messages| - 1 in Candidates(messages, limit, minRetain, focus)
        <==> KeepCount(limit, minRetain) > 0 || MostRelevant(messages, focus, |messages| - 1)
  {
    hide Score, SortRanked, ScoredFrom, Indexes, Last, Increasing, MostRelevant;
    var last := |messages| - 1;
    CandidatesInOrder(messages, limit, minRetain, focus);
    if KeepCount(limit, minRetain) == 0 {
      NothingSlicedOff(messages, limit, minRetain, focus);
      IndexesInOrder(KeepSet(messages, limit, minRetain, focus), |messages|);
      BestIsFirst(messages, focus);
      var sorted := SortRanked(ScoredFrom(messages, focus));
      var top := TopRelevant(messages, limit, minRetain, focus);
      assert top == if sorted == [] then [] else sorted[..1];
      assert last in KeepSet(messages, limit, minRetain, focus) <==> sorted != [] && sorted[0].index == last;
    }
  }

  /** The latest message leads the ranked list exactly if no message is more relevant. */
  lemma {:induction false} BestIsFirst(messages: seq<Message>, focus: seq<string>)
    requires messages != []
    ensures var sorted := SortRanked(ScoredFrom(messages, focus));
            sorted != [] && sorted[0].index == |messages| - 1 <==> MostRelevant(messages, focus, |messages| - 1)
  {
    hide Score, SortRanked, ScoredFrom;
    SortedScores(messages, focus);
    var sorted := SortRanked(ScoredFrom(messages, focus));
    var last := |messages| - 1;
    var best := Score(messages[last], focus);
    assert best > 0 ==> Scored(last, best) in sorted;
    assert sorted != [] ==> sorted[0] in sorted && sorted[0].score == Score(messages[sorted[0].index], focus);
    if sorted != [] && sorted[0].index == last {
      assert sorted[0] in sorted;
      forall i | 0 <= i < |messages| ensures Score(messages[i], focus) <= best {
        var x := Scored(i, Score(messages[i], focus));
        if x.score > 0 {
          assert x in sorted;
        }
      }
    }
  }

  // ---------------------------------------------------------------- both together

  /** Indexes of the messages that are sent. */
  function Picked(messages: seq<Message>, limit: int, minRetain: int, focus: seq<string>, maxTokens: Option<int>)
    : (picked: seq<nat>)
    ensures Within(picked, |messages|)
  {
    if limit <= 0 then []
    else
      var c := Candidates(messages, limit, minRetain, focus);
      CandidatesInOrder(messages, limit, minRetain, focus);
      if maxTokens.Some? && maxTokens.value > 0 then
        Select(c, Kept(Costs(Select(messages, c)), maxTokens.value, 0))
      else c
  }

  function TokenTotal(messages: seq<Message>, picked: seq<nat>): nat
    requires Within(picked, |messages|)
  {
    Total(Costs(messages), picked)
  }

  lemma SelectInOrder(c: seq<nat>, picked: seq<nat>)
    requires Increasing(c) && Increasing(picked) && Within(picked, |c|)
    ensures Increasing(Select(c, picked)) && |Select(c, picked)| <= |c|
    ensures forall i | i in Select(c, picked) :: i in c
  {
    IncreasingFits(picked, |c|);
    forall i | i in Select(c, picked) ensures i in c {
      var k :| 0 <= k < |picked| && c[picked[k]] == i;
    }
  }

  lemma {:induction false} IncreasingFits(picked: seq<nat>, bound: nat)
    requires Increasing(picked) && Within(picked, bound)
    ensures |picked| <= bound
  {
    if picked != [] {
      var n := |picked| - 1;
      assert forall i | 0 <= i < n :: picked[..n][i] < picked[n];
      IncreasingFits(picked[..n], picked[n]);
    }
  }

  lemma {:induction false} TotalOfSelection(messages: seq<Message>, c: seq<nat>, picked: seq<nat>)
    requires Within(c, |messages|) && Within(picked, |c|)
    ensures Total(Costs(Select(messages, c)), picked) == TokenTotal(messages, Select(c, picked))
  {
    if picked != [] {
      TotalOfSelection(messages, c, picked[1..]);
      assert Select(c, picked)[1..] == Select(c, picked[1..]);
    }
  }

  lemma {:induction false} KeptInOrderOrNone(costs: seq<nat>, budget: nat)
    ensures var picked := Kept(costs, budget, 0);
            Increasing(picked) && (costs != [] ==> picked != [] && picked[|picked| - 1] == |costs| - 1)
  {
    if costs != [] {
      KeptInOrder(costs, budget, 0);
    }
  }

  /** The token pass keeps the order and the last candidate. */
  lemma {:induction false} SelectionInOrder(c: seq<nat>, costs: seq<nat>, budget: nat)
    requires Increasing(c) && |costs| == |c|
    ensures var p := Select(c, Kept(costs, budget, 0));
            && Increasing(p) && |p| <= |c| && (c != [] ==> p != [] && p[|p| - 1] == c[|c| - 1])
  {
    hide Kept, Increasing;
    KeptInOrderOrNone(costs, budget);
    SelectInOrder(c, Kept(costs, budget, 0));
  }

  /** In order, at most `limit`, and ending with the latest message whenever any recent message is kept. */
  lemma PickedInOrder(messages: seq<Message>, limit: int, minRetain: int, focus: seq<string>, maxTokens: Option<int>)
    ensures var p := Picked(messages, limit, minRetain, focus, maxTokens);
            && Increasing(p) && (limit > 0 ==> |p| <= limit)
            && (messages != [] && limit > 0 && (Focused(messages, limit, focus) ==> KeepCount(limit, minRetain) > 0)
                ==> p != [] && p[|p| - 1] == |messages| - 1)
  {
    hide Candidates, Kept, Costs, KeepCount, Increasing, Focused, Select;
    if limit > 0 {
      CandidatesInOrder(messages, limit, minRetain, focus);
      var c := Candidates(messages, limit, minRetain, focus);
      if maxTokens.Some? && maxTokens.value > 0 {
        SelectionInOrder(c, Costs(Select(messages, c)), maxTokens.value);
      }
    } else {
      assert Increasing([]) by { NoneIncreasing(); }
    }
  }

  lemma NoneIncreasing()
    ensures Increasing([])
  {
  }

  /** The budget holds unless one message alone exceeds it, and no candidate left out would still fit. */
  lemma PickedFillsBudget(messages: seq<Message>, limit: int, minRetain: int, focus: seq<string>, budget: nat)
    requires limit > 0 && budget > 0
    ensures var c := Candidates(messages, limit, minRetain, focus);
            var p := Picked(messages, limit, minRetain, focus, Some(budget));
            && (forall i | i in p :: i in c)
            && (TokenTotal(messages, p) <= budget || |p| == 1)
            && forall i | i in c && i < |messages| && i !in p ::
                 TokenTotal(messages, p) + EstimateTokens(messages[i]) > budget
  {
    hide Candidates, Kept, EstimateTokens, Increasing, TokenTotal, Total;
    CandidatesInOrder(messages, limit, minRetain, focus);
    var c := Candidates(messages, limit, minRetain, focus);
    var costs := Costs(Select(messages, c));
    var kept := Kept(costs, budget, 0);
    var p := Select(c, kept);
    KeptInOrderOrNone(costs, budget);
    SelectInOrder(c, kept);
    TotalOfSelection(messages, c, kept);
    if c != [] {
      KeptFits(costs, budget, 0);
    } else {
      NoTotal(messages);
    }
    forall k | 0 <= k < |c| && c[k] !in p
      ensures TokenTotal(messages, p) + EstimateTokens(messages[c[k]]) > budget
    {
      assert forall j | 0 <= j < |kept| :: p[j] == c[kept[j]];
      KeptIsMaximal(costs, budget, 0, k);
    }
  }

  /** Without a budget all candidates are sent. */
  lemma NoBudgetSendsAll(messages: seq<Message>, limit: int, minRetain: int, focus: seq<string>,
                         maxTokens: Option<int>)
    requires limit > 0 && (maxTokens.Some? ==> maxTokens.value <= 0)
    ensures Picked(messages, limit, minRetain, focus, maxTokens) == Candidates(messages, limit, minRetain, focus)
  {
  }

  lemma NoTotal(messages: seq<Message>)
    ensures TokenTotal(messages, []) == 0
  {
  }

  lemma SelectSelect(messages: seq<Message>, c: seq<nat>, picked: seq<nat>)
    requires Within(c, |messages|) && Within(picked, |c|)
    ensures Within(Select(c, picked), |messages|)
    ensures Select(Select(messages, c), picked) == Select(messages, Select(c, picked))
  {
  }

  lemma SelectLast(messages: seq<Message>, c: seq<nat>, count: nat)
    requires Within(c, |messages|)
    ensures Within(Last(c, count), |messages|)
    ensures Select(messages, Last(c, count)) == Last(Select(messages, c), count)
  {
  }

  lemma {:induction false} RangeIsAll(bound: nat)
    ensures |Indexes(Range(0, bound), bound)| == bound
    ensures forall i | 0 <= i < bound :: Indexes(Range(0, bound), bound)[i] == i
  {
    if bound > 0 {
      RangeIsAll(bound - 1);
      IndexesAgree(Range(0, bound), Range(0, bound - 1), bound - 1);
    }
  }

  /** Without a focus the candidates are the last messages. */
  lemma UnfocusedCandidates(messages: seq<Message>, limit: nat, minRetain: int, focus: seq<string>)
    requires |messages| <= limit || focus == []
    ensures Within(Candidates(messages, limit, minRetain, focus), |messages|)
    ensures Select(messages, Candidates(messages, limit, minRetain, focus)) == Last(messages, limit)
  {
    hide Indexes, Range;
    var all := Indexes(Range(0, |messages|), |messages|);
    RangeIsAll(|messages|);
    assert Select(messages, all) == messages;
    SelectLast(messages, all, limit);
  }

  /** The loops of trim_context_window that choose recent and relevant messages. */
  method ChooseFocused(messages: seq<Message>, limit: nat, minRetain: int, focus: seq<string>)
    returns (keep: set<nat>)
    ensures keep == KeepSet(messages, limit, minRetain, focus)
  {
    hide Score, SortRanked, KeepCount, RelevantCount;
    var scored := [];
    for index := 0 to |messages|
      invariant scored == ScoredFrom(messages[..index], focus)
    {
      assert messages[..index + 1][..index] == messages[..index];
      var score := Score(messages[index], focus);
      if score > 0 {
        scored := scored + [Scored(index, score)];
      }
    }
    assert messages[..|messages|] == messages;
    var keepCount := KeepCount(limit, minRetain);
    keep := Range(RecentStart(|messages|, keepCount), |messages|);
    ghost var recent := keep;
    if scored == [] {
      assert SortRanked(scored) == [] by { NothingScored(); }
      return;
    }
    var top := TopOf(SortRanked(scored), RelevantCount(limit, keepCount));
    for i := 0 to |top|
      invariant keep == recent + IndexSet(top[..i])
    {
      assert top[..i + 1] == top[..i] + [top[i]];
      keep := keep + {top[i].index};
    }
    assert top[..|top|] == top;
  }

  lemma NothingScored()
    ensures SortRanked([]) == []
  {
  }

  /** The token pass over the candidates `c`. */
  method TrimCandidates(messages: seq<Message>, ghost c: seq<nat>, selected: seq<Message>, maxTokens: Option<int>)
    returns (window: seq<Message>)
    requires Within(c, |messages|) && selected == Select(messages, c)
    requires maxTokens.Some? ==> maxTokens.value > 0
    ensures var p := if maxTokens.Some? then Select(c, Kept(Costs(selected), maxTokens.value, 0)) else c;
            Within(p, |messages|) && window == Select(messages, p)
  {
    hide Kept, Costs, Select;
    window := TrimToTokenBudget(selected, maxTokens);
    if maxTokens.Some? {
      SelectSelect(messages, c, Kept(Costs(selected), maxTokens.value, 0));
    }
  }

  lemma WithinSome(picked: seq<nat>, bound: nat)
    requires Within(picked, bound) && picked != []
    ensures bound > 0
  {
    assert picked[0] < bound;
  }

  lemma NothingPicked(messages: seq<Message>, limit: int, minRetain: int, focus: seq<string>, maxTokens: Option<int>)
    requires limit <= 0 || messages == []
    ensures Select(messages, Picked(messages, limit, minRetain, focus, maxTokens)) == []
  {
    hide Picked;
    var picked := Picked(messages, limit, minRetain, focus, maxTokens);
    if limit <= 0 {
      NoLimitPicksNothing(messages, limit, minRetain, focus, maxTokens);
    } else if picked != [] {
      WithinSome(picked, |messages|);
    }
  }

  lemma NoLimitPicksNothing(messages: seq<Message>, limit: int, minRetain: int, focus: seq<string>,
                            maxTokens: Option<int>)
    requires limit <= 0
    ensures Picked(messages, limit, minRetain, focus, maxTokens) == []
  {
  }

  /** trim_context_window; `focus` holds the tokens of the focus message, none if there is no such message. */
  method TrimContextWindow(messages: seq<Message>, limit: int, minRetain: int, focus: seq<string>,
                           maxTokens: Option<int>) returns (window: seq<Message>)
    ensures window == Select(messages, Picked(messages, limit, minRetain, focus, maxTokens))
  {
    hide Kept, Costs, Increasing, Select, KeepSet, Indexes, Last, Candidates;
    if limit <= 0 || messages == [] {
      NothingPicked(messages, limit, minRetain, focus, maxTokens);
      return [];
    }
    var budget := if maxTokens.Some? && maxTokens.value > 0 then maxTokens else None;
    ghost var c := Candidates(messages, limit, minRetain, focus);
    var selected;
    if |messages| <= limit || focus == [] {
      UnfocusedCandidates(messages, limit, minRetain, focus);
      selected := Last(messages, limit);
    } else {
      var keep := ChooseFocused(messages, limit, minRetain, focus);
      FocusedCandidates(messages, limit, minRetain, focus);
      selected := Last(Select(messages, Indexes(keep, |messages|)), limit);
    }
    window := TrimCandidates(messages, c, selected, budget);
  }

  lemma {:induction false} FocusedCandidates(messages: seq<Message>, limit: nat, minRetain: int, focus: seq<string>)
    requires Focused(messages, limit, focus)
    ensures var all := Indexes(KeepSet(messages, limit, minRetain, focus), |messages|);
            var c := Candidates(messages, limit, minRetain, focus);
            && Within(all, |messages|) && Within(c, |messages|)
            && Select(messages, c) == Last(Select(messages, all), limit)
  {
    hide Indexes, KeepSet, Last;
    var keep := KeepSet(messages, limit, minRetain, focus);
    IndexesInOrder(keep, |messages|);
    var all := Indexes(keep, |messages|);
    assert forall i | 0 <= i < |all| :: all[i] in all;
    SelectLast(messages, all, limit);
  }
}
