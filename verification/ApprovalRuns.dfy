/** Any number of gates of one session, interleaved: they queue for the lock, look at the
    memory, ask, and may be cancelled anywhere. What the memory then says about history. */
module ApprovalRuns {
  import opened Prelude
  import opened ApprovalRecords
  import opened ApprovalGates

  datatype Stage = Waiting | Inside | Prompting | Over
  datatype GateRun = GateRun(gate: Gate, stage: Stage)

  datatype Event =
    | Opened(gate: Gate)
    | Answered(gate: Gate, response: string)
    | GrantedByRule(gate: Gate)
    | DeniedByRule(gate: Gate)

  datatype Session = Session(
    memory: Memory, servers: set<string>, holder: Option<nat>, gates: map<nat, GateRun>, log: seq<Event>)

  /** `listed`: the server is on the built-in list; `readOnly`: the command only reads. */
  datatype Action =
    | Arrive(id: nat, gate: Gate, s: Switches, listed: bool, readOnly: bool)
    | Acquire(id: nat)
    | Examine(id: nat, s: Switches)
    | Reply(id: nat, answer: Answer)
    | Cancel(id: nat)
    | MarkServer(server: string)

  const START := Session(NOTHING, {}, None, map[], [])

  predicate McpApproved(s: Switches, n: Session, server: string, listed: bool) {
    listed || "mcp:" + server in n.memory.categories || s.skip || s.hitlLevel <= 1 || server in n.servers
  }

  predicate BashApproved(s: Switches, m: Memory, readOnly: bool) {
    s.skip || s.hitlLevel <= 1 || "bash" in m.categories || BASH in m.tools || readOnly
  }

  /** The look an MCP or bash call takes before it queues for the lock. */
  predicate ApprovedOutside(n: Session, a: Action)
    requires a.Arrive?
  {
    match a.gate
    case McpGate(server, _) => a.s.autoApprove || McpApproved(a.s, n, server, a.listed)
    case BashGate => BashApproved(a.s, n.memory, a.readOnly)
    case _ => false
  }

  predicate At(n: Session, id: nat, stage: Stage) {
    id in n.gates && n.gates[id].stage == stage
  }

  predicate Enabled(n: Session, a: Action) {
    match a
    case Arrive(id, _, _, _, _) => id !in n.gates
    case Acquire(id) => At(n, id, Waiting) && n.holder == None
    case Examine(id, _) => At(n, id, Inside)
    case Reply(id, _) => At(n, id, Prompting)
    case Cancel(id) => id in n.gates && n.gates[id].stage != Over
    case MarkServer(_) => true
  }

  function Moved(n: Session, id: nat, stage: Stage): Session
    requires id in n.gates
  {
    n.(gates := n.gates[id := n.gates[id].(stage := stage)])
  }

  function Logged(n: Session, e: Event): Session {
    n.(log := n.log + [e])
  }

  function Next(n: Session, a: Action): Session
    requires Enabled(n, a)
  {
    match a
    case Arrive(id, gate, s, _, _) =>
      if ApprovedOutside(n, a) then Logged(n.(gates := n.gates[id := GateRun(gate, Over)]), GrantedByRule(gate))
      else n.(gates := n.gates[id := GateRun(gate, Waiting)])
    case Acquire(id) => Moved(n, id, Inside).(holder := Some(id))
    case Examine(id, s) =>
      var gate := n.gates[id].gate;
      (match Rule(s, n.memory, gate)
       case Automatic(_) => Logged(Moved(n, id, Over).(holder := None), GrantedByRule(gate))
       case Struck => Logged(Moved(n, id, Over).(holder := None), DeniedByRule(gate))
       case Ask => Logged(Moved(n, id, Prompting), Opened(gate)))
    case Reply(id, answer) =>
      var gate := n.gates[id].gate;
      var response := Response(answer, AllowsAlways(gate));
      Logged(Moved(n, id, Over).(holder := None, memory := Settled(n.memory, gate, response)), Answered(gate, response))
    case Cancel(id) =>
      Moved(n, id, Over).(holder := if n.holder == Some(id) then None else n.holder)
    case MarkServer(server) => n.(servers := n.servers + {server})
  }

  // ---- What the log says ----------------------------------------------------------------------

  /** The keys for which some answer was `a`. */
  function AlwaysKeys(log: seq<Event>): set<Key> {
    set e | e in log && e.Answered? && e.response == "a" && StandingKey(e.gate).Some? :: StandingKey(e.gate).value
  }

  /** One answer continues a run of denials, ends it, or does not count towards it. */
  function Recount(run: nat, gate: Gate, response: string, tool: string): nat {
    if TrackedTool(gate) != Some(tool) then run
    else if response == "n" then run + 1
    else if response == "y" || response == "a" then 0
    else run
  }

  /** The trailing run of denials of a tool among its counted answers. */
  function Denials(log: seq<Event>, tool: string): nat {
    if log == [] then 0
    else
      var e, before := log[|log| - 1], log[..|log| - 1];
      if e.Answered? then Recount(Denials(before, tool), e.gate, e.response, tool) else Denials(before, tool)
  }

  /** The gates that look for their own standing permission inside the lock. */
  predicate Rechecks(g: Gate) {
    g.WriteGate? || g.CostGate? || (g.DeclaredGate? && !g.perInvocation && g.name != "")
  }

  predicate Prompts(e: Event) { e.Opened? || e.Answered? }

  /** An event is fair to what came before: no prompt for a tool struck out already, and
      no second `a` for a permission the gate could have found. */
  predicate Fair(before: seq<Event>, e: Event) {
    && (Prompts(e) && ChecksStreak(e.gate) ==> Denials(before, ToolOf(e.gate)) < THRESHOLD)
    && (e.Answered? && e.response == "a" && Rechecks(e.gate) ==> StandingKey(e.gate).value !in AlwaysKeys(before))
  }

  predicate Lawful(log: seq<Event>) {
    log != [] ==> Lawful(log[..|log| - 1]) && Fair(log[..|log| - 1], log[|log| - 1])
  }

  lemma LogGrows(log: seq<Event>, e: Event)
    ensures Lawful(log + [e]) <==> Lawful(log) && Fair(log, e)
    ensures forall k :: k in AlwaysKeys(log + [e]) <==>
      k in AlwaysKeys(log) || (e.Answered? && e.response == "a" && StandingKey(e.gate) == Some(k))
    ensures forall t :: Denials(log + [e], t) == (if e.Answered? then Recount(Denials(log, t), e.gate, e.response, t) else Denials(log, t))
  {
    assert (log + [e])[..|log|] == log;
  }

  // ---- The invariant --------------------------------------------------------------------------

  predicate OneInside(n: Session) {
    && (forall id | id in n.gates :: n.gates[id].stage in {Inside, Prompting} <==> n.holder == Some(id))
    && (n.holder.Some? ==> n.holder.value in n.gates)
  }

  /** What an open prompt was ruled on still holds: nobody else could write meanwhile. */
  predicate StillAsking(m: Memory, g: Gate) {
    && (ChecksStreak(g) ==> Streak(m, ToolOf(g)) < THRESHOLD)
    && (Rechecks(g) ==> !Holds(m, StandingKey(g).value))
  }

  ghost predicate MemoryIsHistory(m: Memory, log: seq<Event>) {
    && (forall k :: Holds(m, k) <==> k in AlwaysKeys(log))
    && (forall t :: Streak(m, t) == Denials(log, t) <= THRESHOLD)
  }

  ghost predicate Inv(n: Session) {
    && OneInside(n)
    && MemoryIsHistory(n.memory, n.log)
    && Lawful(n.log)
    && forall id | id in n.gates && n.gates[id].stage == Prompting :: StillAsking(n.memory, n.gates[id].gate)
  }

  lemma StartInv()
    ensures Inv(START)
  {
    assert forall k :: !Holds(NOTHING, k);
  }

  lemma AskedIsOpen(s: Switches, m: Memory, g: Gate)
    ensures Rule(s, m, g) == Ask ==> StillAsking(m, g)
  {
  }

  lemma SettledHolds(m: Memory, g: Gate, response: string)
    ensures forall k :: Holds(Settled(m, g, response), k) <==>
      Holds(m, k) || (response == "a" && StandingKey(g) == Some(k))
  {
    hide Counted;
  }

  lemma SettledStreak(m: Memory, g: Gate, response: string)
    ensures forall t :: Streak(Settled(m, g, response), t) == Recount(Streak(m, t), g, response, t)
  {
  }

  /** An answer keeps memory equal to history, and is fair to it. */
  lemma AnswerKeeps(m: Memory, log: seq<Event>, g: Gate, response: string)
    requires MemoryIsHistory(m, log) && StillAsking(m, g) && Lawful(log)
    ensures MemoryIsHistory(Settled(m, g, response), log + [Answered(g, response)])
    ensures Lawful(log + [Answered(g, response)])
  {
    SettledHolds(m, g, response);
    SettledStreak(m, g, response);
    LogGrows(log, Answered(g, response));
    hide Settled, AlwaysKeys, Denials, Holds, Streak, Lawful;
    assert forall t :: TrackedTool(g) == Some(t) ==> t == ToolOf(g) && ChecksStreak(g);
  }

  lemma QuietEvent(m: Memory, log: seq<Event>, e: Event)
    requires MemoryIsHistory(m, log) && Lawful(log) && !e.Answered?
    requires e.Opened? ==> StillAsking(m, e.gate)
    ensures MemoryIsHistory(m, log + [e]) && Lawful(log + [e])
  {
    LogGrows(log, e);
    hide AlwaysKeys, Denials, Holds, Streak, Lawful;
  }

  lemma NextKeeps(n: Session, a: Action)
    requires Inv(n) && Enabled(n, a)
    ensures Inv(Next(n, a))
    ensures n.log <= Next(n, a).log
  {
    hide MemoryIsHistory, StillAsking, Lawful, Settled, Rule, Response, ApprovedOutside;
    match a {
      case Arrive(id, gate, s, _, _) =>
        if ApprovedOutside(n, a) {
          QuietEvent(n.memory, n.log, GrantedByRule(gate));
        }
      case Acquire(id) =>
      case Examine(id, s) =>
        var gate := n.gates[id].gate;
        AskedIsOpen(s, n.memory, gate);
        match Rule(s, n.memory, gate) {
          case Automatic(_) => QuietEvent(n.memory, n.log, GrantedByRule(gate));
          case Struck => QuietEvent(n.memory, n.log, DeniedByRule(gate));
          case Ask => QuietEvent(n.memory, n.log, Opened(gate));
        }
      case Reply(id, answer) =>
        var gate := n.gates[id].gate;
        AnswerKeeps(n.memory, n.log, gate, Response(answer, AllowsAlways(gate)));
      case Cancel(id) =>
      case MarkServer(server) =>
    }
  }

  // ---- Runs -------------------------------------------------------------------------------------

  predicate Leads(n: Session, a: Action, next: Session) {
    Enabled(n, a) && next == Next(n, a)
  }

  predicate Run(states: seq<Session>, actions: seq<Action>) {
    && |states| == |actions| + 1
    && states[0] == START
    && forall k {:trigger actions[k]} | 0 <= k < |actions| :: Leads(states[k], actions[k], states[k + 1])
  }

  lemma RunInv(states: seq<Session>, actions: seq<Action>, j: nat)
    requires Run(states, actions) && j < |states|
    ensures Inv(states[j])
    ensures forall i | 0 <= i <= j :: states[i].log <= states[j].log
  {
    hide Inv, Enabled, Next;
    if j == 0 {
      StartInv();
    } else {
      RunInv(states, actions, j - 1);
      assert Leads(states[j - 1], actions[j - 1], states[j]);
      NextKeeps(states[j - 1], actions[j - 1]);
    }
  }

  /** Standing permission is history: a category or tool is always allowed if and only if
      some prompt at a gate that grants it was answered `a`. */
  lemma StandingIsHistory(states: seq<Session>, actions: seq<Action>, j: nat, key: Key)
    requires Run(states, actions) && j < |states|
    ensures Holds(states[j].memory, key) <==>
      exists i :: 0 <= i < |states[j].log| && states[j].log[i].Answered? && states[j].log[i].response == "a"
        && StandingKey(states[j].log[i].gate) == Some(key)
  {
    RunInv(states, actions, j);
    KeysInLog(states[j].log, key);
    hide Run, OneInside, Lawful, StillAsking, Holds, Denials, AlwaysKeys;
  }

  lemma KeysInLog(log: seq<Event>, key: Key)
    ensures key in AlwaysKeys(log) <==>
      exists i :: 0 <= i < |log| && log[i].Answered? && log[i].response == "a" && StandingKey(log[i].gate) == Some(key)
  {
    hide StandingKey;
    if i :| 0 <= i < |log| && log[i].Answered? && log[i].response == "a" && StandingKey(log[i].gate) == Some(key) {
      assert log[i] in log;
    }
  }

  lemma {:induction false} LawfulPrefix(log: seq<Event>, i: nat)
    requires Lawful(log) && i < |log|
    ensures Lawful(log[..i]) && Fair(log[..i], log[i])
    decreases |log|
  {
    hide Fair;
    if i < |log| - 1 {
      LawfulPrefix(log[..|log| - 1], i);
      assert log[..|log| - 1][..i] == log[..i];
    }
  }

  /** The write and cost categories and each declared tool are answered `a` at most once. */
  lemma AlwaysAtMostOnce(states: seq<Session>, actions: seq<Action>, j: nat, p: nat, q: nat)
    requires Run(states, actions) && j < |states| && p < q < |states[j].log|
    requires var e, f := states[j].log[p], states[j].log[q];
      && e.Answered? && f.Answered? && e.response == "a" && f.response == "a"
      && StandingKey(e.gate).Some? && StandingKey(e.gate) == StandingKey(f.gate)
    ensures !Rechecks(states[j].log[q].gate)
  {
    RunInv(states, actions, j);
    var log := states[j].log;
    LawfulPrefix(log, q);
    assert log[..q][p] == log[p];
    assert log[p] in log[..q];
    hide Inv, Run;
  }

  // ---- The gates that look only outside ---------------------------------------------------

  predicate LooksOutside(g: Gate) { g.BashGate? || g.McpGate? }

  /** A bash or MCP gate that is queued, inside or asking arrived while its permission was
      not held. */
  lemma {:induction false} ArrivedUnpermitted(states: seq<Session>, actions: seq<Action>, j: nat, id: nat) returns (k: nat)
    requires Run(states, actions) && j < |states|
    requires id in states[j].gates && states[j].gates[id].stage != Over && LooksOutside(states[j].gates[id].gate)
    ensures k < j && actions[k].Arrive? && actions[k].id == id && actions[k].gate == states[j].gates[id].gate
    ensures !Holds(states[k].memory, StandingKey(actions[k].gate).value)
    decreases j
  {
    hide Rule, Settled, Response, StandingKey;
    var n, a := states[j - 1], actions[j - 1];
    assert Leads(n, a, states[j]);
    if a.Arrive? && a.id == id {
      k := j - 1;
      NotApprovedOutside(n, a);
    } else {
      assert id in n.gates && n.gates[id].stage != Over && n.gates[id].gate == states[j].gates[id].gate;
      k := ArrivedUnpermitted(states, actions, j - 1, id);
    }
  }

  lemma NotApprovedOutside(n: Session, a: Action)
    requires a.Arrive? && LooksOutside(a.gate) && !ApprovedOutside(n, a)
    ensures !Holds(n.memory, StandingKey(a.gate).value)
  {
  }

  /** So a bash or MCP prompt that comes after an `a` for its own permission belongs to a
      call that had already arrived when that `a` was recorded. */
  lemma AskedAfterAlwaysArrivedBefore(states: seq<Session>, actions: seq<Action>, j: nat, id: nat, p: nat) returns (k: nat)
    requires Run(states, actions) && j < |states| && At(states[j], id, Prompting) && p < |states[j].log|
    requires var g, e := states[j].gates[id].gate, states[j].log[p];
      LooksOutside(g) && e.Answered? && e.response == "a" && StandingKey(e.gate) == StandingKey(g)
    ensures k < j && actions[k].Arrive? && actions[k].id == id && actions[k].gate == states[j].gates[id].gate
    ensures |states[k].log| <= p
  {
    k := ArrivedUnpermitted(states, actions, j, id);
    RunInv(states, actions, j);
    RunInv(states, actions, k);
    AlreadyAlways(states[k].log, states[j].log, p);
    hide Run, OneInside, Lawful, StillAsking, Denials, StandingKey, Holds, AlwaysKeys;
  }

  lemma AlreadyAlways(before: seq<Event>, log: seq<Event>, p: nat)
    requires before <= log && p < |log|
    requires log[p].Answered? && log[p].response == "a" && StandingKey(log[p].gate).Some?
    ensures p < |before| ==> StandingKey(log[p].gate).value in AlwaysKeys(before)
  {
    if p < |before| {
      assert before[p] in before;
    }
  }

  /** States that follow one another. */
  predicate Path(states: seq<Session>, actions: seq<Action>) {
    && |states| == |actions| + 1
    && forall k {:trigger actions[k]} | 0 <= k < |actions| :: Leads(states[k], actions[k], states[k + 1])
  }

  predicate MayBeAsked(m: Memory, g: Gate) {
    LooksOutside(g) && (g.BashGate? ==> Streak(m, BASH) < THRESHOLD)
  }

  /** Once queued, such a gate is asked whatever has been permitted meanwhile. */
  lemma QueuedIsAsked(n: Session, id: nat, s: Switches) returns (n1: Session, n2: Session, n3: Session)
    requires At(n, id, Waiting) && n.holder == None && MayBeAsked(n.memory, n.gates[id].gate)
    ensures var g := n.gates[id].gate;
      && Leads(n, Acquire(id), n1) && Leads(n1, Examine(id, s), n2) && Leads(n2, Reply(id, Ipc("a")), n3)
      && n3.gates == n.gates[id := GateRun(g, Over)] && n3.holder == None
      && n3.log == n.log + [Opened(g)] + [Answered(g, "a")]
      && Holds(n3.memory, StandingKey(g).value)
      && (g.BashGate? ==> Streak(n3.memory, BASH) == 0)
  {
    var g := n.gates[id].gate;
    n1 := Next(n, Acquire(id));
    assert Rule(s, n1.memory, g) == Ask;
    n2 := Next(n1, Examine(id, s));
    assert Response(Ipc("a"), AllowsAlways(g)) == "a";
    SettledHolds(n2.memory, g, "a");
    SettledStreak(n2.memory, g, "a");
    hide Rule, Settled, Response, Holds, Streak;
    n3 := Next(n2, Reply(id, Ipc("a")));
  }

  /** Any two such calls queued for one permission may both be asked and both answered `a`. */
  lemma BothAsked(n: Session, i: nat, k: nat, s: Switches) returns (states: seq<Session>, actions: seq<Action>)
    requires i != k && At(n, i, Waiting) && At(n, k, Waiting) && n.holder == None
    requires MayBeAsked(n.memory, n.gates[i].gate) && LooksOutside(n.gates[k].gate)
    requires StandingKey(n.gates[i].gate) == StandingKey(n.gates[k].gate)
    ensures Path(states, actions) && states[0] == n
    ensures var g, h := n.gates[i].gate, n.gates[k].gate;
      states[|states| - 1].log == n.log + [Opened(g)] + [Answered(g, "a")] + [Opened(h)] + [Answered(h, "a")]
  {
    SameKind(n.gates[i].gate, n.gates[k].gate);
    var n1, n2, n3 := QueuedIsAsked(n, i, s);
    var n4, n5, n6 := QueuedIsAsked(n3, k, s);
    hide Leads, Holds, Streak;
    states := [n, n1, n2, n3, n4, n5, n6];
    actions := [Acquire(i), Examine(i, s), Reply(i, Ipc("a")), Acquire(k), Examine(k, s), Reply(k, Ipc("a"))];
  }

  lemma SameKind(g: Gate, h: Gate)
    requires LooksOutside(g) && LooksOutside(h) && StandingKey(g) == StandingKey(h)
    ensures g.BashGate? <==> h.BashGate?
  {
    assert "bash"[0] == 'b';
    if g.McpGate? {
      assert ("mcp:" + g.server)[0] == 'm';
    }
    if h.McpGate? {
      assert ("mcp:" + h.server)[0] == 'm';
    }
  }

  /** From the start of a session: two bash calls, or two calls of any tools of one MCP
      server, that arrive together are both asked, and both may be answered `a`. */
  lemma AskedTwice(g: Gate, h: Gate)
    requires LooksOutside(g) && LooksOutside(h) && StandingKey(g) == StandingKey(h)
    ensures exists states: seq<Session>, actions: seq<Action> ::
      Run(states, actions)
      && states[|states| - 1].log == [Opened(g)] + [Answered(g, "a")] + [Opened(h)] + [Answered(h, "a")]
  {
    var s := Switches(false, 2, false);
    var s1 := START.(gates := map[0 := GateRun(g, Waiting)]);
    var s2 := START.(gates := map[0 := GateRun(g, Waiting), 1 := GateRun(h, Waiting)]);
    ArrivesUnpermitted(START, 0, g, s);
    ArrivesUnpermitted(s1, 1, h, s);
    assert START.gates[0 := GateRun(g, Waiting)] == s1.gates;
    assert s1.gates[1 := GateRun(h, Waiting)] == s2.gates;
    var states, actions := BothAsked(s2, 0, 1, s);
    var first := [Arrive(0, g, s, false, false), Arrive(1, h, s, false, false)];
    var more, acts := [START, s1] + states, first + actions;
    hide Leads, StandingKey;
    forall k | 0 <= k < |acts|
      ensures Leads(more[k], acts[k], more[k + 1])
    {
      if k >= 2 {
        assert acts[k] == actions[k - 2] && more[k] == states[k - 2] && more[k + 1] == states[k - 1];
      }
    }
    assert Run(more, acts);
    assert more[|more| - 1] == states[|states| - 1];
    assert [] + [Opened(g)] == [Opened(g)];
  }

  lemma ArrivesUnpermitted(n: Session, id: nat, g: Gate, s: Switches)
    requires id !in n.gates && n.memory == NOTHING && n.servers == {} && s == Switches(false, 2, false) && LooksOutside(g)
    ensures Leads(n, Arrive(id, g, s, false, false), n.(gates := n.gates[id := GateRun(g, Waiting)]))
  {
  }

  // ---- Three strikes -------------------------------------------------------------------------------

  /** A tool's counter is the length of its trailing run of denials and never passes three. */
  lemma CounterIsTrailingDenials(states: seq<Session>, actions: seq<Action>, j: nat, tool: string)
    requires Run(states, actions) && j < |states|
    ensures Streak(states[j].memory, tool) == Denials(states[j].log, tool) <= THRESHOLD
  {
    RunInv(states, actions, j);
  }

  lemma {:induction false} StruckStays(log: seq<Event>, i: nat, tool: string)
    requires Lawful(log) && i <= |log| && Denials(log[..i], tool) >= THRESHOLD
    ensures Denials(log, tool) >= THRESHOLD
    ensures forall k | i <= k < |log| && ChecksStreak(log[k].gate) && ToolOf(log[k].gate) == tool :: !Prompts(log[k])
    decreases |log|
  {
    if i == |log| {
      assert log[..i] == log;
    } else {
      var before, e := log[..|log| - 1], log[|log| - 1];
      assert before[..i] == log[..i];
      StruckStays(before, i, tool);
      assert forall k | i <= k < |before| :: before[k] == log[k];
      assert TrackedTool(e.gate) == Some(tool) ==> ToolOf(e.gate) == tool && ChecksStreak(e.gate);
      hide AlwaysKeys, Lawful;
    }
  }

  /** Three strikes are for good: from then on the counter stays, no gate that consults it
      ever opens or takes a prompt for the tool again, and what such a gate decides it
      decides by rule. */
  lemma StruckForGood(states: seq<Session>, actions: seq<Action>, i: nat, j: nat, tool: string)
    requires Run(states, actions) && i <= j < |states|
    requires Streak(states[i].memory, tool) >= THRESHOLD
    ensures Streak(states[j].memory, tool) == THRESHOLD
    ensures |states[i].log| <= |states[j].log|
    ensures forall k | |states[i].log| <= k < |states[j].log| ::
      var e := states[j].log[k];
      ChecksStreak(e.gate) && ToolOf(e.gate) == tool ==> e.GrantedByRule? || e.DeniedByRule?
  {
    RunInv(states, actions, i);
    RunInv(states, actions, j);
    hide Run, OneInside, Lawful, StillAsking, Denials, AlwaysKeys, Streak;
    var before, log := states[i].log, states[j].log;
    assert before <= log;
    assert log[..|before|] == before;
    StruckStays(log, |before|, tool);
  }

  /** A struck tool is granted if and only if the automatic grant, which is looked for
      first, finds a reason: open permissions, or a standing one that may have been given
      through another tool. */
  lemma StruckGrantedOnlyByRule(s: Switches, m: Memory, g: Gate, answer: Answer)
    requires StruckOut(m, ToolOf(g)) && ChecksStreak(g)
    ensures RunGate(s, m, g, answer).granted <==> GateReason(s, m, g) != ""
    ensures RunGate(s, m, g, answer).memory == m
    ensures g.WriteGate? && "write" in m.categories ==> RunGate(s, m, g, answer).granted
  {
    hide GateReason, Settled, Response, PromptMoves;
    if g.WriteGate? && "write" in m.categories {
      WriteReason(s, m, g);
    }
  }

  lemma WriteReason(s: Switches, m: Memory, g: Gate)
    requires g.WriteGate? && "write" in m.categories
    ensures GateReason(s, m, g) != ""
  {
    assert ("auto:always-category:" + "write")[0] == 'a';
  }
}
