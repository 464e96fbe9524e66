/**
 The runtime's graph cache: a bounded least-recently-used map, and why a hit returns the graph that a
 rebuild would give although the key is a flat list of permissions followed by tool names.
 */
module RuntimeCache {
  import opened Text
  import opened Sequences
  import opened Wrappers

  // ---------------------------------------------------------------- the LRU map

  function Without<K(==)>(keys: seq<K>, key: K): seq<K> {
    if keys == [] then []
    else Without(keys[..|keys| - 1], key) + if keys[|keys| - 1] == key then [] else [keys[|keys| - 1]]
  }

  /** The keys of a history of uses, each once, by last use. */
  function ByLastUse<K(==)>(uses: seq<K>): seq<K> {
    if uses == [] then [] else Without(ByLastUse(uses[..|uses| - 1]), uses[|uses| - 1]) + [uses[|uses| - 1]]
  }

  predicate Distinct<K(==)>(s: seq<K>) {
    forall i, j | 0 <= i < j < |s| :: s[i] != s[j]
  }

  lemma {:induction false} WithoutKey<K>(keys: seq<K>, key: K)
    requires Distinct(keys)
    ensures Distinct(Without(keys, key))
    ensures forall k :: k in Without(keys, key) <==> k in keys && k != key
    ensures |Without(keys, key)| == |keys| - if key in keys then 1 else 0
  {
    if keys != [] {
      var n := |keys| - 1;
      WithoutKey(keys[..n], key);
      assert keys == keys[..n] + [keys[n]];
      assert keys[n] !in keys[..n];
    }
  }

  lemma {:induction false} WithoutAppend<K>(a: seq<K>, b: seq<K>, key: K)
    ensures Without(a + b, key) == Without(a, key) + Without(b, key)
  {
    if b == [] {
      assert a + b == a;
    } else {
      WithoutAppend(a, b[..|b| - 1], key);
      assert (a + b)[..|a + b| - 1] == a + b[..|b| - 1];
    }
  }

  lemma {:induction false} EachUsedKeyOnce<K>(uses: seq<K>)
    ensures Distinct(ByLastUse(uses)) && forall k :: k in ByLastUse(uses) <==> k in uses
  {
    if uses != [] {
      var n := |uses| - 1;
      EachUsedKeyOnce(uses[..n]);
      WithoutKey(ByLastUse(uses[..n]), uses[n]);
      assert uses == uses[..n] + [uses[n]];
    }
  }

  lemma LastOfTail<K>(front: seq<K>, back: seq<K>, count: nat)
    requires |back| >= count
    ensures Last(front + back, count) == Last(back, count)
  {
  }

  /** Using a key moves it to the end of the newest keys, and pushes the oldest out when there are too many. */
  lemma {:induction false} UseNewest<K>(uses: seq<K>, key: K, capacity: nat)
    requires capacity >= 1
    ensures Last(ByLastUse(uses + [key]), capacity)
         == Last(Without(Last(ByLastUse(uses), capacity), key) + [key], capacity)
  {
    hide Without, Distinct;
    assert (uses + [key])[..|uses|] == uses;
    var ranked := ByLastUse(uses);
    if |ranked| > capacity {
      hide ByLastUse;
      EachUsedKeyOnce(uses);
      var cut := |ranked| - capacity;
      var front, back := ranked[..cut], ranked[cut..];
      assert ranked == front + back;
      WithoutAppend(front, back, key);
      assert Distinct(back) by { SuffixDistinct(ranked, cut); }
      WithoutKey(back, key);
      LastOfTail(Without(front, key), Without(back, key) + [key], capacity);
      assert Without(front, key) + (Without(back, key) + [key]) == Without(ranked, key) + [key];
    }
  }

  lemma SuffixDistinct<K>(s: seq<K>, cut: nat)
    requires Distinct(s) && cut <= |s|
    ensures Distinct(s[cut..])
  {
  }

  /** The flat tuple a runtime is cached under. */
  type Key = seq<string>

  class LruCache<V> {
    const capacity: nat
    var order: seq<Key>
    var values: map<Key, V>
    ghost var uses: seq<Key>

    /** The cache holds exactly the `capacity` most recently used keys, oldest first. */
    ghost predicate Valid()
      reads this
    {
      && capacity >= 1
      && order == Last(ByLastUse(uses), capacity)
      && forall k :: k in values <==> k in order
    }

    constructor (capacity: int)
      ensures Valid() && values == map[] && uses == []
      ensures this.capacity == if capacity < 1 then 1 else capacity
    {
      this.capacity := if capacity < 1 then 1 else capacity;
      order, values, uses := [], map[], [];
    }

    /** _cache_get: a hit counts as a use. */
    method Get(key: Key) returns (value: Option<V>)
      requires Valid()
      modifies this`order, this`uses
      ensures Valid()
      ensures value == if key in values then Some(values[key]) else None
      ensures uses == if key in values then old(uses) + [key] else old(uses)
    {
      if key !in values {
        return None;
      }
      hide Without, ByLastUse, Last;
      UseNewest(uses, key, capacity);
      KeptByUse(uses, key, capacity);
      order := Without(order, key) + [key];
      uses := uses + [key];
      return Some(values[key]);
    }

    /** The eviction loop of _cache_put: the oldest keys leave until the rest fits. */
    method Evict()
      requires capacity >= 1 && Distinct(order) && forall k :: k in values <==> k in order
      modifies this`order, this`values
      ensures order == Last(old(order), capacity)
      ensures forall k :: k in values <==> k in order
      ensures forall k | k in values :: k in old(values) && values[k] == old(values)[k]
    {
      hide Distinct;
      while |order| > capacity
        invariant |order| <= |old(order)| && order == old(order)[|old(order)| - |order|..]
        invariant |order| >= capacity || order == old(order)
        invariant Distinct(order) && forall k :: k in values <==> k in order
        invariant forall k | k in values :: k in old(values) && values[k] == old(values)[k]
      {
        FirstLeaves(order);
        values := values - {order[0]};
        order := order[1..];
      }
    }

    /** _cache_put. */
    method Put(key: Key, value: V)
      requires Valid()
      modifies this
      ensures Valid() && uses == old(uses) + [key]
      ensures key in values && values[key] == value
      ensures forall k | k in values && k != key :: k in old(values) && values[k] == old(values)[k]
    {
      hide Without, ByLastUse, Distinct;
      Moved(uses, key, capacity);
      values := values[key := value];
      order := Without(order, key) + [key];
      uses := uses + [key];
      assert order[|order| - 1] == key;
      Evict();
      assert order[|order| - 1] == key;
    }
  }

  lemma FirstLeaves<K>(s: seq<K>)
    requires s != [] && Distinct(s)
    ensures Distinct(s[1..]) && forall k :: k in s[1..] <==> k in s && k != s[0]
  {
    assert s == [s[0]] + s[1..];
  }

  /** The order after a use, before anything is evicted. */
  lemma {:induction false} Moved<K>(uses: seq<K>, key: K, capacity: nat)
    requires capacity >= 1
    ensures var order := Last(ByLastUse(uses), capacity);
            var moved := Without(order, key) + [key];
            && Distinct(moved) && (forall k :: k in moved <==> k in order || k == key)
            && Last(ByLastUse(uses + [key]), capacity) == Last(moved, capacity)
  {
    hide Without, ByLastUse;
    UseNewest(uses, key, capacity);
    EachUsedKeyOnce(uses);
    var ranked := ByLastUse(uses);
    assert Distinct(Last(ranked, capacity)) by {
      if |ranked| > capacity { SuffixDistinct(ranked, |ranked| - capacity); }
    }
    WithoutKey(Last(ranked, capacity), key);
  }

  /** Moving a cached key to the end needs no eviction. */
  lemma {:induction false} KeptByUse<K>(uses: seq<K>, key: K, capacity: nat)
    requires key in Last(ByLastUse(uses), capacity)
    ensures var order := Last(ByLastUse(uses), capacity);
            Last(Without(order, key) + [key], capacity) == Without(order, key) + [key]
            && forall k :: k in Without(order, key) + [key] <==> k in order
  {
    EachUsedKeyOnce(uses);
    WithoutKey(Last(ByLastUse(uses), capacity), key);
  }

  // ---------------------------------------------------------------- which tools a turn may use

  datatype Tool = Tool(name: string, version: string)

  function StripAll(permissions: seq<string>): seq<string> {
    if permissions == [] then []
    else
      var name := Trim(permissions[|permissions| - 1], IsPySpace);
      StripAll(permissions[..|permissions| - 1]) + if name != "" then [name] else []
  }

  function Deduped(names: seq<string>): seq<string> {
    if names == [] then []
    else
      var before := Deduped(names[..|names| - 1]);
      if names[|names| - 1] in before then before else before + [names[|names| - 1]]
  }

  /** _normalize_permissions. */
  function NormalizePermissions(permissions: Option<seq<string>>): seq<string> {
    if permissions.None? then ["*"]
    else if permissions.value == [] then []
    else if "*" in permissions.value then ["*"]
    else Deduped(StripAll(permissions.value))
  }

  function PickTools(tools: seq<Tool>, names: seq<string>): seq<Tool> {
    if tools == [] then []
    else (if tools[0].name in names then [tools[0]] else []) + PickTools(tools[1..], names)
  }

  /** ToolRegistry.get_tools. */
  function GetTools(registry: seq<Tool>, permissions: Option<seq<string>>): seq<Tool> {
    var normalized := NormalizePermissions(permissions);
    if normalized == ["*"] then registry else PickTools(registry, normalized)
  }

  // ---------------------------------------------------------------- the flat key

  predicate Less(a: string, b: string) {
    if b == "" then false
    else if a == "" then true
    else a[0] < b[0] || (a[0] == b[0] && Less(a[1..], b[1..]))
  }

  function InsertName(sorted: seq<string>, name: string): seq<string> {
    if sorted == [] || Less(name, sorted[0]) then [name] + sorted
    else if name == sorted[0] then sorted
    else [sorted[0]] + InsertName(sorted[1..], name)
  }

  /** sorted(set(names)). */
  function SortedSet(names: seq<string>): seq<string> {
    if names == [] then [] else InsertName(SortedSet(names[..|names| - 1]), names[|names| - 1])
  }

  function ToolNames(tools: seq<Tool>): (names: seq<string>)
    ensures |names| == |tools| && forall i | 0 <= i < |names| :: names[i] == tools[i].name
  {
    seq(|tools|, i requires 0 <= i < |tools| => tools[i].name)
  }

  function PermissionSignature(permissions: Option<seq<string>>): seq<string> {
    if permissions.None? then ["*"] else SortedSet(StripAll(permissions.value))
  }

  datatype ModelSettings = ModelSettings(chatModel: string, temperature: string, maxTokens: string, baseUrl: string)

  /** Everything in the key that depends on the permissions. */
  function KeyTail(registry: seq<Tool>, permissions: Option<seq<string>>): seq<string> {
    PermissionSignature(permissions) + SortedSet(ToolNames(GetTools(registry, permissions)))
  }

  /** _runtime_cache_key. */
  function CacheKey(settings: ModelSettings, registry: seq<Tool>, permissions: Option<seq<string>>): Key {
    ["model", settings.chatModel, settings.temperature, settings.maxTokens, settings.baseUrl, "permissions"]
    + KeyTail(registry, permissions)
  }

  // ---------------------------------------------------------------- what the key says

  lemma {:induction false} InsertHolds(sorted: seq<string>, name: string)
    ensures forall x :: x in InsertName(sorted, name) <==> x == name || x in sorted
  {
    if sorted != [] && !Less(name, sorted[0]) && name != sorted[0] {
      InsertHolds(sorted[1..], name);
      assert sorted == [sorted[0]] + sorted[1..];
    }
  }

  lemma {:induction false} SortedHolds(names: seq<string>)
    ensures forall x :: x in SortedSet(names) <==> x in names
  {
    if names != [] {
      var n := |names| - 1;
      SortedHolds(names[..n]);
      InsertHolds(SortedSet(names[..n]), names[n]);
      assert names == names[..n] + [names[n]];
    }
  }

  lemma {:induction false} DedupedHolds(names: seq<string>)
    ensures forall x :: x in Deduped(names) <==> x in names
  {
    if names != [] {
      var n := |names| - 1;
      DedupedHolds(names[..n]);
      assert names == names[..n] + [names[n]];
    }
  }

  lemma {:induction false} PickHolds(tools: seq<Tool>, names: seq<string>)
    ensures forall t :: t in PickTools(tools, names) <==> t in tools && t.name in names
  {
    if tools != [] {
      PickHolds(tools[1..], names);
      assert tools == [tools[0]] + tools[1..];
    }
  }

  lemma {:induction false} PickAgrees(tools: seq<Tool>, a: seq<string>, b: seq<string>)
    requires forall t | t in tools :: t.name in a <==> t.name in b
    ensures PickTools(tools, a) == PickTools(tools, b)
  {
    if tools != [] {
      PickAgrees(tools[1..], a, b);
    }
  }

  lemma {:induction false} PickAll(tools: seq<Tool>, names: seq<string>)
    requires forall t | t in tools :: t.name in names
    ensures PickTools(tools, names) == tools
  {
    if tools != [] {
      PickAll(tools[1..], names);
    }
  }

  lemma NamesHold(tools: seq<Tool>, name: string)
    ensures name in ToolNames(tools) <==> exists t :: t in tools && t.name == name
  {
    var names := ToolNames(tools);
    if name in names {
      var i :| 0 <= i < |names| && names[i] == name;
      assert tools[i] in tools;
    }
    if t :| t in tools && t.name == name {
      var i :| 0 <= i < |tools| && tools[i] == t;
      assert names[i] == name;
    }
  }

  /** The tools of a turn are exactly the registered ones whose names occur in its key. */
  lemma {:induction false} ToolsAreInKey(registry: seq<Tool>, permissions: Option<seq<string>>)
    ensures GetTools(registry, permissions) == PickTools(registry, KeyTail(registry, permissions))
  {
    hide PickTools, SortedSet, Deduped, StripAll, ToolNames;
    var tools := GetTools(registry, permissions);
    var normalized := NormalizePermissions(permissions);
    var tail := KeyTail(registry, permissions);
    SortedHolds(ToolNames(tools));
    PickHolds(registry, normalized);
    if permissions.Some? {
      SortedHolds(StripAll(permissions.value));
      DedupedHolds(StripAll(permissions.value));
    }
    forall t | t in registry ensures t.name in tail <==> t in tools {
      NamesHold(tools, t.name);
      if t.name in PermissionSignature(permissions) && normalized != ["*"] {
        assert t.name in normalized by { SignatureIsNormalized(permissions, t.name); }
      }
    }
    if normalized == ["*"] {
      PickAll(registry, tail);
    } else {
      PickAgrees(registry, normalized, tail);
    }
  }

  lemma SignatureIsNormalized(permissions: Option<seq<string>>, name: string)
    requires NormalizePermissions(permissions) != ["*"] && name in PermissionSignature(permissions)
    ensures name in NormalizePermissions(permissions)
  {
    hide SortedSet, Deduped, Trim;
    SortedHolds(StripAll(permissions.value));
    DedupedHolds(StripAll(permissions.value));
  }

  // ---------------------------------------------------------------- what permissions allow

  /** The permissions name the tool: some entry is its name, up to the white space around it. */
  predicate Names(permissions: seq<string>, name: string) {
    name != "" && exists p | p in permissions :: Trim(p, IsPySpace) == name
  }

  lemma {:induction false} StrippedExactly(permissions: seq<string>)
    ensures forall name :: name in StripAll(permissions) <==> Names(permissions, name)
  {
    hide Trim;
    if permissions != [] {
      var n := |permissions| - 1;
      StrippedExactly(permissions[..n]);
      assert permissions == permissions[..n] + [permissions[n]];
    }
  }

  lemma {:induction false} DedupedIsDistinct(names: seq<string>)
    ensures Distinct(Deduped(names))
  {
    if names != [] {
      DedupedIsDistinct(names[..|names| - 1]);
    }
  }

  /** Permissions that stand for every tool: none given, a literal `*`, or nothing but padded ones. */
  ghost predicate AllowsAll(permissions: Option<seq<string>>) {
    || permissions.None?
    || "*" in permissions.value
    || (Names(permissions.value, "*") && forall name | Names(permissions.value, name) :: name == "*")
  }

  lemma {:induction false} AllExactly(permissions: Option<seq<string>>)
    ensures NormalizePermissions(permissions) == ["*"] <==> AllowsAll(permissions)
  {
    hide StripAll, Deduped, Names, Distinct;
    if permissions.Some? {
      var names := Deduped(StripAll(permissions.value));
      StrippedExactly(permissions.value);
      DedupedHolds(StripAll(permissions.value));
      assert permissions.value == [] ==> forall name :: !Names(permissions.value, name) by { NoneNamed(); }
      OnlyStar(names) by { DedupedIsDistinct(StripAll(permissions.value)); }
      assert "*" in ["*"];
    }
  }

  lemma NoneNamed()
    ensures forall name :: !Names([], name)
  {
  }

  lemma OnlyStar(names: seq<string>)
    requires Distinct(names)
    ensures names == ["*"] <==> "*" in names && forall name | name in names :: name == "*"
  {
    if "*" in names && forall name | name in names :: name == "*" {
      var second := if |names| > 1 then names[1] else "";
      assert names[0] in names && (|names| > 1 ==> second in names);
    }
  }

  /** A tool may be used exactly if the permissions stand for all tools or name it. */
  lemma {:induction false} AllowedExactly(registry: seq<Tool>, permissions: Option<seq<string>>, tool: Tool)
    ensures tool in GetTools(registry, permissions)
        <==> tool in registry && (AllowsAll(permissions) || Names(permissions.value, tool.name))
  {
    hide NormalizePermissions, AllowsAll, Names;
    AllExactly(permissions);
    if !AllowsAll(permissions) {
      assert permissions.Some? by { NothingAllowsAll(); }
      PickHolds(registry, NormalizePermissions(permissions));
      NormalizedNames(permissions);
    }
  }

  lemma NothingAllowsAll()
    ensures AllowsAll(None)
  {
  }

  lemma NormalizedNames(permissions: Option<seq<string>>)
    requires permissions.Some? && !AllowsAll(permissions)
    ensures forall name :: name in NormalizePermissions(permissions) <==> Names(permissions.value, name)
  {
    hide StripAll, Deduped, Trim;
    StrippedExactly(permissions.value);
    DedupedHolds(StripAll(permissions.value));
  }

  // ---------------------------------------------------------------- the key does not depend on spelling

  lemma {:induction false} LessIsOrder(a: string, b: string, c: string)
    ensures !Less(a, a) && (Less(a, b) && Less(b, c) ==> Less(a, c)) && (a == b || Less(a, b) || Less(b, a))
  {
    if a != "" {
      LessIsOrder(a[1..], if b == "" then "" else b[1..], if c == "" then "" else c[1..]);
    } else if b != "" && c != "" {
      LessIsOrder("", b[1..], c[1..]);
    }
    assert a != "" && b != "" && a[0] == b[0] && a[1..] == b[1..] ==> a == b by {
      if a != "" && b != "" && a[0] == b[0] && a[1..] == b[1..] {
        assert a == [a[0]] + a[1..];
        assert b == [b[0]] + b[1..];
      }
    }
  }

  predicate Sorted(names: seq<string>) {
    forall i, j | 0 <= i < j < |names| :: Less(names[i], names[j])
  }

  lemma {:induction false} InsertSorts(sorted: seq<string>, name: string)
    requires Sorted(sorted)
    ensures Sorted(InsertName(sorted, name))
  {
    hide Less;
    var inserted := InsertName(sorted, name);
    if sorted != [] && !Less(name, sorted[0]) && name != sorted[0] {
      InsertSorts(sorted[1..], name);
      InsertHolds(sorted[1..], name);
      LessIsOrder(sorted[0], name, name);
      var rest := InsertName(sorted[1..], name);
      forall j | 0 <= j < |rest| ensures Less(sorted[0], rest[j]) {
        assert rest[j] in rest;
        if rest[j] != name {
          var k :| 0 <= k < |sorted| - 1 && sorted[1..][k] == rest[j];
          assert sorted[k + 1] == rest[j];
        }
      }
    } else if sorted != [] && Less(name, sorted[0]) {
      forall j | 0 <= j < |sorted| ensures Less(name, sorted[j]) {
        LessIsOrder(name, sorted[0], sorted[j]);
      }
    }
  }

  lemma {:induction false} SetIsSorted(names: seq<string>)
    ensures Sorted(SortedSet(names))
  {
    hide Sorted;
    if names != [] {
      SetIsSorted(names[..|names| - 1]);
      InsertSorts(SortedSet(names[..|names| - 1]), names[|names| - 1]);
    } else {
      assert Sorted([]) by { NothingSorted(); }
    }
  }

  lemma NothingSorted()
    ensures Sorted([])
  {
  }

  lemma {:induction false} SortedAreEqual(a: seq<string>, b: seq<string>)
    requires Sorted(a) && Sorted(b) && forall x :: x in a <==> x in b
    ensures a == b
  {
    hide Less;
    if a == [] {
      HoldsNothing(b);
    } else {
      assert a[0] in b && b != [] && b[0] in a;
      FirstIsLeast(a, b[0]);
      FirstIsLeast(b, a[0]);
      LessIsOrder(a[0], b[0], a[0]);
      forall x ensures x in a[1..] <==> x in b[1..] {
        FirstOnce(a, x);
        FirstOnce(b, x);
      }
      SortedAreEqual(a[1..], b[1..]);
      assert a == [a[0]] + a[1..] && b == [b[0]] + b[1..];
    }
  }

  lemma HoldsNothing(s: seq<string>)
    requires forall x :: x !in s
    ensures s == []
  {
    var x := if s == [] then "" else s[0];
    assert s != [] ==> x in s;
  }

  lemma {:induction false} FirstIsLeast(s: seq<string>, x: string)
    requires Sorted(s) && x in s
    ensures x == s[0] || Less(s[0], x)
  {
    hide Less;
  }

  lemma FirstOnce(s: seq<string>, x: string)
    requires Sorted(s) && s != []
    ensures x in s[1..] <==> x in s && x != s[0]
  {
    hide Less;
    LessIsOrder(s[0], s[0], s[0]);
    assert s == [s[0]] + s[1..];
    assert forall i | 0 <= i < |s| - 1 :: s[1..][i] == s[i + 1];
  }

  /**
   Permissions that name the same tools have one key: order, repetition and white space do not matter, so a
   graph is not built again for another spelling.
   */
  lemma {:induction false} SpellingDoesNotMatter(settings: ModelSettings, registry: seq<Tool>,
                                                 p: seq<string>, q: seq<string>)
    requires forall name :: Names(p, name) <==> Names(q, name)
    requires "*" in p <==> "*" in q
    ensures CacheKey(settings, registry, Some(p)) == CacheKey(settings, registry, Some(q))
  {
    hide Names, StripAll, SortedSet, NormalizePermissions;
    StrippedExactly(p);
    StrippedExactly(q);
    SameSetSameSorted(StripAll(p), StripAll(q));
    SameToolsPicked(registry, p, q);
  }

  lemma {:induction false} SameSetSameSorted(a: seq<string>, b: seq<string>)
    requires forall x :: x in a <==> x in b
    ensures SortedSet(a) == SortedSet(b)
  {
    hide SortedSet, Sorted;
    SetIsSorted(a);
    SetIsSorted(b);
    SortedHolds(a);
    SortedHolds(b);
    SortedAreEqual(SortedSet(a), SortedSet(b));
  }

  lemma SameToolsPicked(registry: seq<Tool>, p: seq<string>, q: seq<string>)
    requires forall name :: Names(p, name) <==> Names(q, name)
    requires "*" in p <==> "*" in q
    ensures GetTools(registry, Some(p)) == GetTools(registry, Some(q))
  {
    hide Names, NormalizePermissions;
    AllExactly(Some(p));
    AllExactly(Some(q));
    if !AllowsAll(Some(p)) {
      NormalizedNames(Some(p));
      NormalizedNames(Some(q));
      PickAgrees(registry, NormalizePermissions(Some(p)), NormalizePermissions(Some(q)));
    }
  }

  // ---------------------------------------------------------------- equal keys

  /** Equal keys mean equal model settings and equal tools, so a flat key loses nothing that matters. */
  lemma KeyDecidesTools(s: ModelSettings, t: ModelSettings, registry: seq<Tool>,
                        p: Option<seq<string>>, q: Option<seq<string>>)
    requires CacheKey(s, registry, p) == CacheKey(t, registry, q)
    ensures s == t && GetTools(registry, p) == GetTools(registry, q)
  {
    hide KeyTail, GetTools;
    var k, l := CacheKey(s, registry, p), CacheKey(t, registry, q);
    assert k[6..] == KeyTail(registry, p) && l[6..] == KeyTail(registry, q);
    assert k[1] == s.chatModel && k[2] == s.temperature && k[3] == s.maxTokens && k[4] == s.baseUrl;
    assert l[1] == t.chatModel && l[2] == t.temperature && l[3] == t.maxTokens && l[4] == t.baseUrl;
    ToolsAreInKey(registry, p);
    ToolsAreInKey(registry, q);
  }

  // ---------------------------------------------------------------- the container

  datatype Model = Model(settings: ModelSettings, tools: seq<Tool>)

  datatype Graph = Graph(model: Model, tools: seq<Tool>)

  class RuntimeContainer {
    const settings: ModelSettings
    const registry: seq<Tool>
    const models: LruCache<Model>
    const graphs: LruCache<Graph>

    ghost function BuiltModel(permissions: Option<seq<string>>): Model {
      Model(settings, GetTools(registry, permissions))
    }

    ghost function BuiltGraph(permissions: Option<seq<string>>): Graph {
      Graph(BuiltModel(permissions), GetTools(registry, permissions))
    }

    ghost function KeyOf(permissions: Option<seq<string>>): Key {
      CacheKey(settings, registry, permissions)
    }

    /** Whatever is cached is what would be built for any permissions with that key. */
    ghost predicate ModelsAgree(cached: map<Key, Model>) {
      forall p :: KeyOf(p) in cached ==> cached[KeyOf(p)] == BuiltModel(p)
    }

    ghost predicate GraphsAgree(cached: map<Key, Graph>) {
      forall p :: KeyOf(p) in cached ==> cached[KeyOf(p)] == BuiltGraph(p)
    }

    ghost predicate Valid()
      reads this, models, graphs
    {
      models.Valid() && graphs.Valid() && ModelsAgree(models.values) && GraphsAgree(graphs.values)
    }

    constructor (settings: ModelSettings, registry: seq<Tool>, capacity: int)
      ensures Valid() && fresh(models) && fresh(graphs)
      ensures this.settings == settings && this.registry == registry
    {
      this.settings, this.registry := settings, registry;
      models := new LruCache(capacity);
      graphs := new LruCache(capacity);
    }

    /** Permissions with the same key have the same tools. */
    lemma SameKey(p: Option<seq<string>>, q: Option<seq<string>>)
      requires KeyOf(p) == KeyOf(q)
      ensures BuiltModel(p) == BuiltModel(q) && BuiltGraph(p) == BuiltGraph(q)
    {
      KeyDecidesTools(settings, settings, registry, p, q);
    }

    lemma ModelAdded(before: map<Key, Model>, after: map<Key, Model>, p: Option<seq<string>>)
      requires ModelsAgree(before) && KeyOf(p) in after && after[KeyOf(p)] == BuiltModel(p)
      requires forall k | k in after && k != KeyOf(p) :: k in before && after[k] == before[k]
      ensures ModelsAgree(after)
    {
      hide KeyOf, BuiltModel, BuiltGraph;
      forall q | KeyOf(q) in after ensures after[KeyOf(q)] == BuiltModel(q) {
        if KeyOf(q) == KeyOf(p) {
          SameKey(q, p);
        }
      }
    }

    lemma GraphAdded(before: map<Key, Graph>, after: map<Key, Graph>, p: Option<seq<string>>)
      requires GraphsAgree(before) && KeyOf(p) in after && after[KeyOf(p)] == BuiltGraph(p)
      requires forall k | k in after && k != KeyOf(p) :: k in before && after[k] == before[k]
      ensures GraphsAgree(after)
    {
      hide KeyOf, BuiltModel, BuiltGraph;
      forall q | KeyOf(q) in after ensures after[KeyOf(q)] == BuiltGraph(q) {
        if KeyOf(q) == KeyOf(p) {
          SameKey(q, p);
        }
      }
    }

    /** get_model. */
    method GetModel(permissions: Option<seq<string>>) returns (model: Model)
      requires Valid()
      modifies models
      ensures Valid() && model == BuiltModel(permissions)
    {
      hide CacheKey, GetTools;
      var tools := GetTools(registry, permissions);
      var key := CacheKey(settings, registry, permissions);
      var cached := models.Get(key);
      if cached.Some? {
        return cached.value;
      }
      model := Model(settings, tools);
      ghost var before := models.values;
      models.Put(key, model);
      hide ModelsAgree, GraphsAgree;
      ModelAdded(before, models.values, permissions);
    }

    /** graph_for_permissions: cached or not, the graph is the one a rebuild would give. */
    method GraphForPermissions(permissions: Option<seq<string>>) returns (graph: Graph)
      requires Valid()
      modifies models, graphs
      ensures Valid() && graph == BuiltGraph(permissions)
    {
      hide CacheKey, GetTools;
      var tools := GetTools(registry, permissions);
      var key := CacheKey(settings, registry, permissions);
      var cached := graphs.Get(key);
      if cached.Some? {
        return cached.value;
      }
      hide ModelsAgree, GraphsAgree;
      var model := GetModel(permissions);
      graph := Graph(model, tools);
      ghost var before := graphs.values;
      graphs.Put(key, graph);
      GraphAdded(before, graphs.values, permissions);
    }
  }
}
