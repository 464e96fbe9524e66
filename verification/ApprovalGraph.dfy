/**
 The ReAct graph with human approval: its four nodes, its three routing functions, and what holds on
 every path through it, over any number of turns and resumptions of one thread.
 */
module ApprovalGraph {
  import opened Wrappers
  import opened Text

  // ---------------------------------------------------------------- state

  /** A tool call as the model wrote it; `name` is missing when it is not a string. */
  datatype ToolCall = ToolCall(id: string, name: Option<string>)

  datatype Message = Assistant(calls: seq<ToolCall>) | ToolResult(id: string, failed: bool) | OtherMessage(text: string)

  /** Tool names of a turn; `None` stands for a value that is not a list. */
  datatype Policy = Policy(available: Option<seq<string>>, confirmation: Option<seq<string>>)

  datatype State = State(messages: seq<Message>, policy: Policy, approved: Option<bool>,
                         toolError: bool, toolErrors: nat)

  datatype Node = AgentNode | ToolsNode | HumanNode | ErrorNode | End

  // ---------------------------------------------------------------- approval replies

  datatype Reply = Flag(value: bool) | Form(approved: bool) | Words(text: string)

  function LowerAscii(s: string): (r: string)
    ensures |r| == |s|
  {
    seq(|s|, i requires 0 <= i < |s| => if 'A' <= s[i] <= 'Z' then (s[i] as int + 32) as char else s[i])
  }

  const APPROVAL_WORDS := {"approve", "approved", "yes", "ok", "true", "1", "confirm",
    "\U{786E}\U{8BA4}", "\U{540C}\U{610F}", "\U{6279}\U{51C6}", "\U{7EE7}\U{7EED}", "\U{53EF}\U{4EE5}"}

  const REJECTION_WORDS := {"reject", "rejected", "no", "false", "0", "deny", "cancel",
    "\U{62D2}\U{7EDD}", "\U{4E0D}\U{540C}\U{610F}", "\U{53D6}\U{6D88}", "\U{505C}\U{6B62}"}

  /** _coerce_human_approval. */
  function CoerceApproval(reply: Reply): Option<bool> {
    match reply
    case Flag(value) => Some(value)
    case Form(approved) => Some(approved)
    case Words(text) =>
      var normalized := LowerAscii(Trim(text, IsPySpace));
      if normalized in APPROVAL_WORDS then Some(true)
      else if normalized in REJECTION_WORDS then Some(false)
      else None
  }

  // ---------------------------------------------------------------- routing

  function CallName(call: ToolCall): string {
    if call.name.Some? then Trim(call.name.value, IsPySpace) else ""
  }

  function RequiredNames(configured: seq<string>): set<string> {
    set name | name in configured && Trim(name, IsPySpace) != "" :: Trim(name, IsPySpace)
  }

  predicate RequiresConfirmation(calls: seq<ToolCall>, policy: Policy) {
    if policy.confirmation.None? then false
    else
      var required := RequiredNames(policy.confirmation.value);
      if required == {} then false
      else if "*" in required then true
      else exists call | call in calls :: CallName(call) in required
  }

  predicate HasInvalidCall(calls: seq<ToolCall>, policy: Policy) {
    if policy.available.None? then false
    else
      var valid := set name | name in policy.available.value && name != "";
      if "*" in valid then false
      else exists call | call in calls :: CallName(call) !in valid
  }

  function RouteAfterAgent(s: State): Node {
    if s.toolError then ErrorNode
    else if s.messages == [] then End
    else
      var last := s.messages[|s.messages| - 1];
      if !last.Assistant? || last.calls == [] then End
      else if HasInvalidCall(last.calls, s.policy) then ErrorNode
      else if RequiresConfirmation(last.calls, s.policy) && s.approved != Some(true) then HumanNode
      else ToolsNode
  }

  function RouteAfterTools(s: State): Node {
    if s.toolError then ErrorNode else AgentNode
  }

  function RouteAfterHuman(s: State): Node {
    match s.approved
    case Some(true) => ToolsNode
    case Some(false) => End
    case None => HumanNode
  }

  // ---------------------------------------------------------------- nodes

  function RunAgent(s: State, response: Message): State {
    s.(messages := s.messages + [response], approved := None, toolError := false)
  }

  /** `results` are the messages the tool calls left. */
  function RunTools(s: State, results: seq<Message>): State {
    var failed := exists m | m in results :: m.ToolResult? && m.failed;
    s.(messages := s.messages + results, approved := None, toolError := failed,
       toolErrors := s.toolErrors + if failed then 1 else 0)
  }

  function RunHuman(s: State, reply: Reply): State {
    s.(approved := CoerceApproval(reply), toolError := false)
  }

  function RunError(s: State): State {
    s.(toolError := false)
  }

  // ---------------------------------------------------------------- paths

  /** What one visit of a node leaves in the record of a thread. */
  datatype Visit =
    | TurnVisit(begun: Policy)
    | AgentVisit(response: Message)
    | ToolsVisit(calls: seq<ToolCall>, policy: Policy, failed: bool)
    | HumanVisit(reply: Reply)
    | ErrorVisit

  datatype Thread = Thread(state: State, next: Node, path: seq<Visit>)

  /** What the world answers to a visit: the model, the tools, and the human (if already asked). */
  datatype World = World(response: Message, results: seq<Message>, reply: Option<Reply>)

  datatype Action =
    /** A new turn: its messages and its policy. */
    | Begin(messages: seq<Message>, policy: Policy)
    /** One step of the graph. */
    | Step(world: World)

  function LastCalls(s: State): seq<ToolCall> {
    if s.messages != [] && s.messages[|s.messages| - 1].Assistant? then s.messages[|s.messages| - 1].calls else []
  }

  function StepThread(t: Thread, world: World): Thread {
    match t.next
    case AgentNode =>
      var s := RunAgent(t.state, world.response);
      Thread(s, RouteAfterAgent(s), t.path + [AgentVisit(world.response)])
    case ToolsNode =>
      var s := RunTools(t.state, world.results);
      var failed := exists m | m in world.results :: m.ToolResult? && m.failed;
      Thread(s, RouteAfterTools(s), t.path + [ToolsVisit(LastCalls(t.state), t.state.policy, failed)])
    case HumanNode =>
      // Without a reply the node interrupts: the thread stays where it is.
      if world.reply.None? then t
      else
        var s := RunHuman(t.state, world.reply.value);
        Thread(s, RouteAfterHuman(s), t.path + [HumanVisit(world.reply.value)])
    case ErrorNode => Thread(RunError(t.state), AgentNode, t.path + [ErrorVisit])
    case End => t
  }

  function Apply(t: Thread, action: Action): Thread {
    match action
    case Begin(messages, policy) =>
      Thread(t.state.(messages := t.state.messages + messages, policy := policy), AgentNode,
             t.path + [TurnVisit(policy)])
    case Step(world) => StepThread(t, world)
  }

  function Run(t: Thread, actions: seq<Action>): Thread {
    if actions == [] then t else Apply(Run(t, actions[..|actions| - 1]), actions[|actions| - 1])
  }

  const NEW_THREAD := Thread(State([], Policy(None, None), None, false, 0), End, [])

  // ---------------------------------------------------------------- what safety means

  /** A configured name covers a call: `*` covers every call, a blank name none. */
  predicate Covers(name: string, call: ToolCall) {
    name == "*" || (name != "" && call.name.Some? && name == Trim(call.name.value, IsPySpace))
  }

  /** The call names a tool of the turn. */
  predicate Available(call: ToolCall, policy: Policy) {
    policy.available.Some? ==> exists name | name in policy.available.value :: Covers(name, call)
  }

  /** The turn wants a human to confirm the call. */
  predicate Confirmable(call: ToolCall, policy: Policy) {
    policy.confirmation.Some?
    && exists name | name in policy.confirmation.value :: Covers(Trim(name, IsPySpace), call)
  }

  /** The same letters, except that `s` may write them as capitals. */
  predicate SameButCase(s: string, word: string) {
    && |s| == |word|
    && forall i | 0 <= i < |s| ::
         s[i] == word[i] || ('a' <= word[i] <= 'z' && s[i] as int == word[i] as int - 32)
  }

  predicate IsYesWord(s: string) {
    || SameButCase(s, "approve") || SameButCase(s, "approved") || SameButCase(s, "yes") || SameButCase(s, "ok")
    || SameButCase(s, "true") || SameButCase(s, "1") || SameButCase(s, "confirm")
    || s == "\U{786E}\U{8BA4}" || s == "\U{540C}\U{610F}" || s == "\U{6279}\U{51C6}"
    || s == "\U{7EE7}\U{7EED}" || s == "\U{53EF}\U{4EE5}"
  }

  predicate IsNoWord(s: string) {
    || SameButCase(s, "reject") || SameButCase(s, "rejected") || SameButCase(s, "no") || SameButCase(s, "false")
    || SameButCase(s, "0") || SameButCase(s, "deny") || SameButCase(s, "cancel")
    || s == "\U{62D2}\U{7EDD}" || s == "\U{4E0D}\U{540C}\U{610F}" || s == "\U{53D6}\U{6D88}"
    || s == "\U{505C}\U{6B62}"
  }

  /** The human agreed. */
  predicate SaysYes(reply: Reply) {
    reply == Flag(true) || reply == Form(true) || (reply.Words? && IsYesWord(Trim(reply.text, IsPySpace)))
  }

  /** The human refused. */
  predicate SaysNo(reply: Reply) {
    reply == Flag(false) || reply == Form(false) || (reply.Words? && IsNoWord(Trim(reply.text, IsPySpace)))
  }

  predicate Undecided(reply: Reply) {
    !SaysYes(reply) && !SaysNo(reply)
  }

  /** The policy of the turn that position `i` of the path belongs to. */
  function PolicyAt(path: seq<Visit>, i: nat): Policy
    requires i <= |path|
  {
    if i == 0 then Policy(None, None)
    else if path[i - 1].TurnVisit? then path[i - 1].begun
    else PolicyAt(path, i - 1)
  }

  /** The agent visit that a position of the path answers: only undecided human replies lie between. */
  ghost predicate Asks(path: seq<Visit>, j: nat, i: nat, calls: seq<ToolCall>) {
    && j < i <= |path| && path[j] == AgentVisit(Assistant(calls))
    && forall k | j < k < i :: path[k].HumanVisit? && Undecided(path[k].reply)
  }

  ghost predicate Asked(path: seq<Visit>, i: nat, calls: seq<ToolCall>) {
    exists j: nat :: Asks(path, j, i, calls)
  }

  /** Tools may run at position `i`: straight after the agent, or after a human said yes if one has to. */
  ghost predicate Licensed(path: seq<Visit>, i: nat, calls: seq<ToolCall>, policy: Policy) {
    && calls != [] && (forall call | call in calls :: Available(call, policy))
    && i <= |path| && policy == PolicyAt(path, i)
    && if exists call | call in calls :: Confirmable(call, policy) then
         && 1 <= i && path[i - 1].HumanVisit? && SaysYes(path[i - 1].reply)
         && Asked(path, i - 1, calls)
       else
         1 <= i && path[i - 1] == AgentVisit(Assistant(calls))
  }

  ghost predicate Safe(path: seq<Visit>) {
    forall i | 0 <= i < |path| && path[i].ToolsVisit? :: Licensed(path, i, path[i].calls, path[i].policy)
  }

  // ---------------------------------------------------------------- replies mean what they say

  lemma LowerMatches(s: string, word: string)
    requires forall i | 0 <= i < |word| :: !('A' <= word[i] <= 'Z')
    ensures LowerAscii(s) == word <==> SameButCase(s, word)
  {
    if SameButCase(s, word) {
      assert LowerAscii(s) == word;
    }
  }

  lemma LatinWords(s: string)
    ensures LowerAscii(s) in {"approve", "approved", "yes", "ok", "true", "1", "confirm"}
        <==> || SameButCase(s, "approve") || SameButCase(s, "approved") || SameButCase(s, "yes")
             || SameButCase(s, "ok") || SameButCase(s, "true") || SameButCase(s, "1") || SameButCase(s, "confirm")
    ensures LowerAscii(s) in {"reject", "rejected", "no", "false", "0", "deny", "cancel"}
        <==> || SameButCase(s, "reject") || SameButCase(s, "rejected") || SameButCase(s, "no")
             || SameButCase(s, "false") || SameButCase(s, "0") || SameButCase(s, "deny") || SameButCase(s, "cancel")
  {
    hide LowerAscii, SameButCase;
    LowerMatches(s, "approve");
    LowerMatches(s, "approved");
    LowerMatches(s, "yes");
    LowerMatches(s, "ok");
    LowerMatches(s, "true");
    LowerMatches(s, "1");
    LowerMatches(s, "confirm");
    LowerMatches(s, "reject");
    LowerMatches(s, "rejected");
    LowerMatches(s, "no");
    LowerMatches(s, "false");
    LowerMatches(s, "0");
    LowerMatches(s, "deny");
    LowerMatches(s, "cancel");
  }

  /** A word without Latin letters is matched as it is written. */
  lemma PlainWord(s: string, word: string)
    requires forall i | 0 <= i < |word| :: word[i] > 'z'
    ensures LowerAscii(s) == word <==> s == word
  {
    if LowerAscii(s) == word {
      forall i | 0 <= i < |s| ensures s[i] == word[i] {
        assert LowerAscii(s)[i] == word[i];
      }
    }
  }

  lemma ChineseWords(s: string)
    ensures LowerAscii(s) in {"\U{786E}\U{8BA4}", "\U{540C}\U{610F}", "\U{6279}\U{51C6}",
                              "\U{7EE7}\U{7EED}", "\U{53EF}\U{4EE5}"}
        <==> || s == "\U{786E}\U{8BA4}" || s == "\U{540C}\U{610F}" || s == "\U{6279}\U{51C6}"
             || s == "\U{7EE7}\U{7EED}" || s == "\U{53EF}\U{4EE5}"
    ensures LowerAscii(s) in {"\U{62D2}\U{7EDD}", "\U{4E0D}\U{540C}\U{610F}", "\U{53D6}\U{6D88}",
                              "\U{505C}\U{6B62}"}
        <==> || s == "\U{62D2}\U{7EDD}" || s == "\U{4E0D}\U{540C}\U{610F}" || s == "\U{53D6}\U{6D88}"
             || s == "\U{505C}\U{6B62}"
  {
    hide LowerAscii;
    PlainWord(s, "\U{786E}\U{8BA4}");
    PlainWord(s, "\U{540C}\U{610F}");
    PlainWord(s, "\U{6279}\U{51C6}");
    PlainWord(s, "\U{7EE7}\U{7EED}");
    PlainWord(s, "\U{53EF}\U{4EE5}");
    PlainWord(s, "\U{62D2}\U{7EDD}");
    PlainWord(s, "\U{4E0D}\U{540C}\U{610F}");
    PlainWord(s, "\U{53D6}\U{6D88}");
    PlainWord(s, "\U{505C}\U{6B62}");
  }

  /** A reply counts as approval exactly when it agrees, and as rejection exactly when it refuses. */
  lemma ApprovalExactly(reply: Reply)
    ensures CoerceApproval(reply) == Some(true) <==> SaysYes(reply)
    ensures CoerceApproval(reply) == Some(false) <==> SaysNo(reply)
    ensures CoerceApproval(reply) == None <==> Undecided(reply)
  {
    hide LowerAscii, Trim, SameButCase;
    if reply.Words? {
      var s := Trim(reply.text, IsPySpace);
      LatinWords(s);
      ChineseWords(s);
      NoWordIsBoth(LowerAscii(s));
    }
  }

  lemma NoWordIsBoth(s: string)
    ensures !(s in APPROVAL_WORDS && s in REJECTION_WORDS)
  {
  }

  // ---------------------------------------------------------------- routing decides by call

  lemma CoversByName(name: string, call: ToolCall)
    ensures Covers(name, call) <==> name == "*" || (name != "" && name == CallName(call))
  {
    hide Trim;
  }

  lemma InvalidExactly(calls: seq<ToolCall>, policy: Policy)
    requires calls != []
    ensures HasInvalidCall(calls, policy) <==> exists call | call in calls :: !Available(call, policy)
  {
    hide CallName, Covers;
    forall name: string, call: ToolCall {
      CoversByName(name, call);
    }
    if policy.available.Some? {
      var valid := set name | name in policy.available.value && name != "";
      if "*" in valid {
        forall call | call in calls ensures Available(call, policy) {
          assert Covers("*", call);
        }
      } else {
        forall call | call in calls ensures CallName(call) in valid <==> Available(call, policy) {
          if CallName(call) in valid {
            assert Covers(CallName(call), call);
          }
        }
      }
    }
  }

  lemma ConfirmationExactly(calls: seq<ToolCall>, policy: Policy)
    requires calls != []
    ensures RequiresConfirmation(calls, policy) <==> exists call | call in calls :: Confirmable(call, policy)
  {
    hide CallName, Trim, Covers;
    forall name: string, call: ToolCall {
      CoversByName(name, call);
    }
    if policy.confirmation.Some? {
      var names := policy.confirmation.value;
      var required := RequiredNames(names);
      forall call | call in calls
        ensures Confirmable(call, policy) <==> "*" in required || CallName(call) in required
      {
        if "*" in required || CallName(call) in required {
          var name :| name in names && Trim(name, IsPySpace) != ""
                      && (Trim(name, IsPySpace) == "*" || Trim(name, IsPySpace) == CallName(call));
          assert Covers(Trim(name, IsPySpace), call);
        }
      }
      assert calls[0] in calls;
    }
  }

  // ---------------------------------------------------------------- the invariant

  /** What is known about a thread that waits for a human or for its tools. */
  ghost predicate Pending(t: Thread) {
    var calls := LastCalls(t.state);
    match t.next
    case HumanNode =>
      && calls != [] && (forall call | call in calls :: Available(call, t.state.policy))
      && (exists call | call in calls :: Confirmable(call, t.state.policy))
      && Asked(t.path, |t.path|, calls)
    case ToolsNode => Licensed(t.path, |t.path|, calls, t.state.policy)
    case _ => true
  }

  ghost predicate Good(t: Thread) {
    Safe(t.path) && Pending(t) && t.state.policy == PolicyAt(t.path, |t.path|)
  }

  lemma {:induction false} PolicyExtends(path: seq<Visit>, more: seq<Visit>, i: nat)
    requires i <= |path|
    ensures PolicyAt(path + more, i) == PolicyAt(path, i)
  {
    if i > 0 {
      assert (path + more)[i - 1] == path[i - 1];
      PolicyExtends(path, more, i - 1);
    }
  }

  /** Only a new turn changes the policy. */
  lemma {:induction false} PolicyStays(path: seq<Visit>, visit: Visit)
    ensures PolicyAt(path + [visit], |path| + 1) == if visit.TurnVisit? then visit.begun else PolicyAt(path, |path|)
  {
    PolicyExtends(path, [visit], |path|);
    assert (path + [visit])[|path|] == visit;
  }

  lemma AsksExtends(path: seq<Visit>, more: seq<Visit>, j: nat, i: nat, calls: seq<ToolCall>)
    requires Asks(path, j, i, calls)
    ensures Asks(path + more, j, i, calls)
  {
    hide Undecided;
    var longer := path + more;
    assert forall k | 0 <= k < |path| :: longer[k] == path[k];
  }

  lemma LicensedExtends(path: seq<Visit>, more: seq<Visit>, i: nat, calls: seq<ToolCall>, policy: Policy)
    requires Licensed(path, i, calls, policy)
    ensures Licensed(path + more, i, calls, policy)
  {
    hide SaysYes, Asks, Available, Confirmable, PolicyAt;
    assert (path + more)[i - 1] == path[i - 1];
    PolicyExtends(path, more, i);
    if exists call | call in calls :: Confirmable(call, policy) {
      var j: nat :| Asks(path, j, i - 1, calls);
      AsksExtends(path, more, j, i - 1, calls);
    }
  }

  lemma SafeExtends(path: seq<Visit>, visit: Visit)
    requires Safe(path)
    requires visit.ToolsVisit? ==> Licensed(path, |path|, visit.calls, visit.policy)
    ensures Safe(path + [visit])
  {
    hide Licensed;
    var longer := path + [visit];
    forall i | 0 <= i < |longer| && longer[i].ToolsVisit?
      ensures Licensed(longer, i, longer[i].calls, longer[i].policy)
    {
      LicensedExtends(path, [visit], i, longer[i].calls, longer[i].policy);
    }
  }

  lemma AgentKeeps(t: Thread, world: World)
    requires Good(t) && t.next == AgentNode
    ensures Good(StepThread(t, world))
  {
    hide HasInvalidCall, RequiresConfirmation, Available, Confirmable, PolicyAt;
    var visit := AgentVisit(world.response);
    SafeExtends(t.path, visit);
    PolicyStays(t.path, visit);
    var s := RunAgent(t.state, world.response);
    var path := t.path + [visit];
    assert path[|t.path|] == visit;
    var calls := LastCalls(s);
    if calls != [] {
      InvalidExactly(calls, s.policy);
      ConfirmationExactly(calls, s.policy);
      assert Asks(path, |t.path|, |path|, calls);
    }
  }

  lemma HumanKeeps(t: Thread, world: World)
    requires Good(t) && t.next == HumanNode && world.reply.Some?
    ensures Good(StepThread(t, world))
  {
    hide Available, Confirmable, CoerceApproval, SaysYes, SaysNo, PolicyAt;
    var visit := HumanVisit(world.reply.value);
    SafeExtends(t.path, visit);
    PolicyStays(t.path, visit);
    ApprovalExactly(world.reply.value);
    var calls := LastCalls(t.state);
    var j: nat :| Asks(t.path, j, |t.path|, calls);
    var path := t.path + [visit];
    AsksExtends(t.path, [visit], j, |t.path|, calls);
    assert path[|t.path|] == visit;
    if CoerceApproval(world.reply.value) == None {
      assert Asks(path, j, |path|, calls);
    }
  }

  lemma StepKeeps(t: Thread, world: World)
    requires Good(t)
    ensures Good(StepThread(t, world))
  {
    hide Licensed, Asks, Available, Confirmable, CoerceApproval, RouteAfterAgent, PolicyAt;
    match t.next
    case AgentNode => AgentKeeps(t, world);
    case HumanNode => if world.reply.Some? { HumanKeeps(t, world); }
    case ToolsNode =>
      var visit := StepThread(t, world).path[|t.path|];
      SafeExtends(t.path, visit);
      PolicyStays(t.path, visit);
    case ErrorNode =>
      SafeExtends(t.path, ErrorVisit);
      PolicyStays(t.path, ErrorVisit);
    case End =>
  }

  lemma BeginKeeps(t: Thread, messages: seq<Message>, policy: Policy)
    requires Good(t)
    ensures Good(Apply(t, Begin(messages, policy)))
  {
    hide Licensed, PolicyAt;
    SafeExtends(t.path, TurnVisit(policy));
    PolicyStays(t.path, TurnVisit(policy));
  }

  lemma {:induction false} RunKeeps(t: Thread, actions: seq<Action>)
    requires Good(t)
    ensures Good(Run(t, actions))
  {
    hide Good, StepThread;
    if actions != [] {
      var n := |actions| - 1;
      RunKeeps(t, actions[..n]);
      match actions[n]
      case Begin(messages, policy) => BeginKeeps(Run(t, actions[..n]), messages, policy);
      case Step(world) => StepKeeps(Run(t, actions[..n]), world);
    }
  }

  /**
   However a thread is driven, tools only ever run on tools the turn makes available, and when one of them has
   to be confirmed, only right after a human said yes to that very message of the agent.
   */
  lemma {:induction false} ToolsAreLicensed(actions: seq<Action>, i: nat)
    requires i < |Run(NEW_THREAD, actions).path| && Run(NEW_THREAD, actions).path[i].ToolsVisit?
    ensures var path := Run(NEW_THREAD, actions).path; Licensed(path, i, path[i].calls, path[i].policy)
  {
    hide Licensed;
    assert Good(NEW_THREAD);
    RunKeeps(NEW_THREAD, actions);
  }

  // ---------------------------------------------------------------- where every visit leads

  ghost predicate HasCalls(message: Message) {
    message.Assistant? && message.calls != []
  }

  /** The node a visit leads to, by what the model, the tools and the human said. */
  ghost function Successor(visit: Visit, policy: Policy): Node {
    match visit
    case TurnVisit(_) => AgentNode
    case AgentVisit(response) =>
      if !HasCalls(response) then End
      else if exists call | call in response.calls :: !Available(call, policy) then ErrorNode
      else if exists call | call in response.calls :: Confirmable(call, policy) then HumanNode
      else ToolsNode
    case ToolsVisit(_, _, failed) => if failed then ErrorNode else AgentNode
    case HumanVisit(reply) => if SaysYes(reply) then ToolsNode else if SaysNo(reply) then End else HumanNode
    case ErrorVisit => AgentNode
  }

  /** The node a visit was made at; a new turn may begin anywhere. */
  function NodeOf(visit: Visit): Node
    requires !visit.TurnVisit?
  {
    match visit
    case AgentVisit(_) => AgentNode
    case ToolsVisit(_, _, _) => ToolsNode
    case HumanVisit(_) => HumanNode
    case ErrorVisit => ErrorNode
  }

  /** How many visits of the tools left a failed call. */
  function FailedVisits(path: seq<Visit>): nat {
    if path == [] then 0
    else FailedVisits(path[..|path| - 1])
         + if path[|path| - 1].ToolsVisit? && path[|path| - 1].failed then 1 else 0
  }

  /** Every visit was the one its predecessor led to, and the thread is about to make the next one. */
  ghost predicate Follows(t: Thread) {
    && (if t.path == [] then t.next == End
        else t.next == Successor(t.path[|t.path| - 1], PolicyAt(t.path, |t.path|)))
    && (forall i | 0 <= i < |t.path| && !t.path[i].TurnVisit? ::
          0 < i && NodeOf(t.path[i]) == Successor(t.path[i - 1], PolicyAt(t.path, i)))
    && t.state.policy == PolicyAt(t.path, |t.path|)
    && t.state.toolErrors == FailedVisits(t.path)
  }

  /** After a visit of the agent the graph ends, complains, asks or runs tools, as the calls and the policy say. */
  lemma AgentDecides(s: State, response: Message)
    ensures RouteAfterAgent(RunAgent(s, response)) == Successor(AgentVisit(response), s.policy)
  {
    hide HasInvalidCall, RequiresConfirmation, Available, Confirmable;
    if HasCalls(response) {
      InvalidExactly(response.calls, s.policy);
      ConfirmationExactly(response.calls, s.policy);
    }
  }

  /** The route behind the agent for any state: an error first, then the calls, then the human unless already asked. */
  lemma RouteExactly(s: State)
    ensures var calls := LastCalls(s);
            var invalid := exists call | call in calls :: !Available(call, s.policy);
            var confirm := exists call | call in calls :: Confirmable(call, s.policy);
            var next := RouteAfterAgent(s);
            && (next == ErrorNode <==> s.toolError || invalid)
            && (next == End <==> !s.toolError && calls == [])
            && (next == HumanNode <==> !s.toolError && calls != [] && !invalid && confirm && s.approved != Some(true))
            && (next == ToolsNode <==>
                  !s.toolError && calls != [] && !invalid && (confirm ==> s.approved == Some(true)))
  {
    hide HasInvalidCall, RequiresConfirmation, Available, Confirmable;
    if LastCalls(s) != [] {
      InvalidExactly(LastCalls(s), s.policy);
      ConfirmationExactly(LastCalls(s), s.policy);
    }
  }

  /** What each visit leaves of the two flags: the approval is the human's last word and serves one visit only. */
  lemma FlagsAfterVisit(t: Thread, world: World)
    ensures var after := StepThread(t, world).state;
            match t.next
            case AgentNode => after.approved == None && !after.toolError
            case ToolsNode =>
              after.approved == None
              && (after.toolError <==> exists m | m in world.results :: m.ToolResult? && m.failed)
            case HumanNode =>
              world.reply.Some? ==>
                && (after.approved == Some(true) <==> SaysYes(world.reply.value))
                && (after.approved == Some(false) <==> SaysNo(world.reply.value)) && !after.toolError
            case ErrorNode => after.approved == t.state.approved && !after.toolError
            case End => after == t.state
  {
    hide CoerceApproval, SaysYes, SaysNo, RouteAfterAgent, LastCalls;
    if world.reply.Some? {
      ApprovalExactly(world.reply.value);
    }
  }

  lemma HumanDecides(s: State, reply: Reply)
    ensures RouteAfterHuman(RunHuman(s, reply)) == Successor(HumanVisit(reply), s.policy)
  {
    hide CoerceApproval, SaysYes, SaysNo;
    ApprovalExactly(reply);
  }

  lemma VisitFollows(t: Thread, t': Thread, visit: Visit)
    requires Follows(t) && t'.path == t.path + [visit]
    requires !visit.TurnVisit? ==> t.path != [] && NodeOf(visit) == t.next
    requires t'.state.policy == if visit.TurnVisit? then visit.begun else t.state.policy
    requires t'.next == Successor(visit, t'.state.policy)
    requires t'.state.toolErrors == t.state.toolErrors + if visit.ToolsVisit? && visit.failed then 1 else 0
    ensures Follows(t')
  {
    hide Successor, PolicyAt;
    PolicyStays(t.path, visit);
    assert t'.path[..|t.path|] == t.path && t'.path[|t.path|] == visit;
    forall i | 0 <= i < |t'.path| && !t'.path[i].TurnVisit?
      ensures 0 < i && NodeOf(t'.path[i]) == Successor(t'.path[i - 1], PolicyAt(t'.path, i))
    {
      PolicyExtends(t.path, [visit], i);
      assert i < |t.path| ==> t'.path[i] == t.path[i];
    }
  }

  lemma StepFollows(t: Thread, world: World)
    requires Follows(t)
    ensures Follows(StepThread(t, world))
  {
    var t' := StepThread(t, world);
    if t'.path != t.path {
      hide PolicyAt, Available, Confirmable, HasInvalidCall, RequiresConfirmation, CoerceApproval, LastCalls;
      AgentDecides(t.state, world.response);
      if world.reply.Some? {
        HumanDecides(t.state, world.reply.value);
      }
      hide SaysYes, SaysNo, RouteAfterAgent, RouteAfterHuman, HasCalls;
      VisitFollows(t, t', t'.path[|t.path|]);
    }
  }

  lemma BeginFollows(t: Thread, messages: seq<Message>, policy: Policy)
    requires Follows(t)
    ensures Follows(Apply(t, Begin(messages, policy)))
  {
    hide PolicyAt, FailedVisits;
    VisitFollows(t, Apply(t, Begin(messages, policy)), TurnVisit(policy));
  }

  /**
   In every run each visit is the one that the model's calls, the policy of the turn, the tools' results and the
   human's reply lead to: a refusal ends the turn, an agreement runs the tools, and a failed call is reported.
   */
  lemma {:induction false} PathFollows(actions: seq<Action>)
    ensures Follows(Run(NEW_THREAD, actions))
  {
    hide Follows, StepThread;
    if actions == [] {
      assert Follows(NEW_THREAD) by { NothingFollows(); }
    } else {
      var n := |actions| - 1;
      PathFollows(actions[..n]);
      match actions[n]
      case Begin(messages, policy) => BeginFollows(Run(NEW_THREAD, actions[..n]), messages, policy);
      case Step(world) => StepFollows(Run(NEW_THREAD, actions[..n]), world);
    }
  }

  lemma NothingFollows()
    ensures Follows(NEW_THREAD)
  {
  }

  // ---------------------------------------------------------------- what is said is kept

  /** The messages an action adds: those of the turn, the model's response, or what the tools left. */
  function Said(t: Thread, action: Action): seq<Message> {
    match action
    case Begin(messages, _) => messages
    case Step(world) =>
      if t.next == AgentNode then [world.response] else if t.next == ToolsNode then world.results else []
  }

  /** All messages of a run, in the order in which they were added. */
  function Transcript(actions: seq<Action>): seq<Message> {
    if actions == [] then []
    else
      var n := |actions| - 1;
      Transcript(actions[..n]) + Said(Run(NEW_THREAD, actions[..n]), actions[n])
  }

  lemma ActionSays(t: Thread, action: Action)
    ensures Apply(t, action).state.messages == t.state.messages + Said(t, action)
  {
    hide RouteAfterAgent, RouteAfterHuman, RouteAfterTools, CoerceApproval, LastCalls;
  }

  /** No node drops, repeats or reorders a message. */
  lemma {:induction false} MessagesAreKept(actions: seq<Action>)
    ensures Run(NEW_THREAD, actions).state.messages == Transcript(actions)
  {
    hide Apply, Said;
    if actions != [] {
      var n := |actions| - 1;
      MessagesAreKept(actions[..n]);
      ActionSays(Run(NEW_THREAD, actions[..n]), actions[n]);
    }
  }

  // ---------------------------------------------------------------- one run_turn

  datatype Outcome = Finished | Interrupted | IterationLimit

  function AgentVisits(path: seq<Visit>): nat {
    if path == [] then 0
    else AgentVisits(path[..|path| - 1]) + if path[|path| - 1].AgentVisit? then 1 else 0
  }

  /** Steps that may follow before the next agent visit, per node. */
  function Pace(next: Node): nat {
    match next
    case ToolsNode => 2
    case HumanNode => 2
    case ErrorNode => 1
    case _ => 0
  }

  /**
   run_turn: streams the graph until it ends or interrupts, counting the updates of the agent node. A
   reply, when the turn resumes, is handed to the first visit of the human node only.
   */
  method RunTurn(begin: Thread, model: nat -> Message, tools: nat -> seq<Message>, resume: Option<Reply>,
                 maxIterations: nat)
    returns (t: Thread, outcome: Outcome, steps: nat, ghost actions: seq<Action>)
    ensures t == Run(begin, actions) && forall a | a in actions :: a.Step?
    ensures steps <= 3 * maxIterations + 6
    ensures |t.path| == |begin.path| + steps && begin.path <= t.path
    ensures AgentVisits(t.path) <= AgentVisits(begin.path) + maxIterations + 1
    ensures outcome == IterationLimit <==> AgentVisits(t.path) > AgentVisits(begin.path) + maxIterations
    ensures outcome == Finished ==> t.next == End
    ensures outcome == Interrupted ==> t.next == HumanNode
  {
    hide RunAgent, RunTools, RunHuman, RunError, RouteAfterAgent, RouteAfterHuman, RouteAfterTools, LastCalls;
    t, steps, actions := begin, 0, [];
    var iterations, reply := 0, resume;
    while t.next != End && (t.next != HumanNode || reply.Some?)
      invariant t == Run(begin, actions) && forall a | a in actions :: a.Step?
      invariant steps + 3 * (maxIterations + 1 - iterations) + Pace(t.next) + (if reply.Some? then 1 else 0)
             <= 3 * maxIterations + 6
      invariant iterations <= maxIterations
      invariant |t.path| == |begin.path| + steps && begin.path <= t.path
      invariant AgentVisits(t.path) == AgentVisits(begin.path) + iterations
      decreases 3 * (maxIterations + 1 - iterations) + Pace(t.next) + (if reply.Some? then 1 else 0)
    {
      var world := World(model(steps), tools(steps), reply);
      var agent := t.next == AgentNode;
      if t.next == HumanNode {
        reply := None;
      }
      StepCounts(t, world);
      assert (actions + [Step(world)])[..|actions|] == actions;
      actions := actions + [Step(world)];
      t, steps := StepThread(t, world), steps + 1;
      if agent {
        iterations := iterations + 1;
        if iterations > maxIterations {
          return t, IterationLimit, steps, actions;
        }
      }
    }
    outcome := if t.next == End then Finished else Interrupted;
  }

  /** One step makes progress towards the next agent visit, and is counted once. */
  lemma StepCounts(t: Thread, world: World)
    requires t.next != End && (t.next == HumanNode ==> world.reply.Some?)
    ensures var after := StepThread(t, world);
            && |after.path| == |t.path| + 1 && t.path <= after.path
            && AgentVisits(after.path) == AgentVisits(t.path) + (if t.next == AgentNode then 1 else 0)
            && (if t.next == AgentNode || t.next == HumanNode then Pace(after.next) <= 2
                else Pace(after.next) < Pace(t.next))
  {
    hide HasInvalidCall, RequiresConfirmation, CoerceApproval, LastCalls;
    var after := StepThread(t, world);
    assert after.path[..|t.path|] == t.path;
  }
}
