/** What the answers mean, read off the typed text and the kind of gate; when a session has
    struck a tool out; and the trails a whole approval can leave. */
module ApprovalAnswers {
  import opened Prelude
  import opened PythonText
  import opened ApprovalRecords
  import opened ApprovalGates
  import opened ApprovalRuns

  // ---- One gate -----------------------------------------------------------------------------------

  predicate SaysYes(answer: Answer) {
    || answer == PublicHook(true)
    || answer == Ipc("y")
    || (answer.Typed? && Lower(Strip(answer.raw)) in ["", "y", "yes"])
  }

  predicate SaysAlways(answer: Answer) {
    answer == Ipc("a") || (answer.Typed? && Lower(Strip(answer.raw)) in ["a", "always"])
  }

  /** Everything typed that is neither is a refusal; an unknown IPC reply is nothing at all. */
  predicate SaysNo(answer: Answer) {
    || answer == PublicHook(false) || answer.NoHuman? || answer.Interrupted?
    || answer == Ipc("n")
    || (answer.Typed? && !SaysYes(answer) && !SaysAlways(answer))
  }

  /** The personal-data gate and declared tools approved per invocation forget. */
  predicate Remembers(g: Gate) {
    !g.SensitiveGate? && !(g.DeclaredGate? && g.perInvocation)
  }

  /** The gates whose answers feed the streak of a tool. */
  predicate Counts(g: Gate, tool: string) {
    match g
    case WriteGate(name) => tool == name
    case CostGate(name) => tool == name
    case DeclaredGate(name, perInvocation) => !perInvocation && tool == name
    case BashGate => tool == "run_bash"
    case _ => false
  }

  function Permission(g: Gate): set<string> {
    match g
    case WriteGate(_) => {"write"}
    case CostGate(_) => {"cost"}
    case McpGate(server, _) => {"mcp:" + server}
    case BashGate => {"bash"}
    case _ => {}
  }

  /** A gate that asks is granted exactly by a yes, or by an always where it can be remembered;
      then, and only then, the permission is remembered; and the streaks of no tool but its own
      move: one up for a refusal, gone for a grant. */
  lemma AskedGate(s: Switches, m: Memory, g: Gate, answer: Answer)
    requires Rule(s, m, g) == Ask
    ensures var run := RunGate(s, m, g, answer);
      var forever := SaysAlways(answer) && Remembers(g);
      && (run.granted <==> SaysYes(answer) || forever)
      && run.memory.categories == m.categories + (if forever then Permission(g) else {})
      && run.memory.tools == m.tools + (if forever && g.DeclaredGate? then {g.name} else {})
      && (forall tool :: Streak(run.memory, tool) ==
            if !Counts(g, tool) then Streak(m, tool)
            else if run.granted then 0
            else if SaysNo(answer) then Streak(m, tool) + 1
            else Streak(m, tool))
  {
    hide Rule, Strip, Lower, PromptMoves;
    var response := Response(answer, AllowsAlways(g));
    ResponseMeans(answer, AllowsAlways(g));
    hide Response, SaysYes, SaysAlways, SaysNo;
  }

  lemma ResponseMeans(answer: Answer, always: bool)
    ensures var response := Response(answer, always);
      && (response == "y" <==> SaysYes(answer))
      && (response == "a" <==> SaysAlways(answer) && always)
      && (always ==> (response == "n" <==> SaysNo(answer)))
  {
    hide Strip, Lower;
  }

  /** A gate decides without asking exactly by a standing or open permission, or by a third
      refusal. */
  lemma RuledExactly(s: Switches, m: Memory, g: Gate)
    ensures Rule(s, m, g).Automatic? <==>
      && (g.WriteGate? || g.CostGate? || (g.DeclaredGate? && !g.perInvocation))
      && (|| s.skip || s.hitlLevel == 0
          || (if g.WriteGate? then "write" else if g.CostGate? then "cost" else "") in m.categories
          || (g.name != "" && g.name in m.tools))
    ensures Rule(s, m, g) == Struck <==>
      && !Rule(s, m, g).Automatic? && !g.McpGate?
      && Streak(m, if g.BashGate? then "run_bash" else g.name) >= 3
  {
    if g.WriteGate? {
      ReasonGiven(s, m, "write", g.name);
    } else if g.CostGate? {
      ReasonGiven(s, m, "cost", g.name);
    } else if g.DeclaredGate? {
      ReasonGiven(s, m, "", g.name);
    }
    hide AutoReason;
  }

  lemma ReasonGiven(s: Switches, m: Memory, category: string, tool: string)
    ensures AutoReason(s, m, category, tool) != "" <==>
      s.skip || s.hitlLevel == 0 || category in m.categories || (tool != "" && tool in m.tools)
  {
    assert ("auto:always-category:" + category)[0] == 'a';
  }

  /** A tool goes ahead exactly when the personal-data or else the write gate, if it falls under
      one, grants it, and then the cost gate, if it has a price that was not approved for the
      batch or for good; nothing is asked of a dangerous tool here. */
  lemma ToolGoesAhead(
    s: Switches, m: Memory, tool: string, c: ToolClass, batchApproved: bool, first: Answer, second: Answer)
    ensures var r := SafetyGates(s, m, tool, c, batchApproved, first, second);
      var personal, write := RunGate(s, m, SensitiveGate(tool), first), RunGate(s, m, WriteGate(tool), first);
      var left := if c.sensitive then personal.memory else if c.write then write.memory else m;
      var cost := RunGate(s, left, CostGate(tool), second);
      && (c.dangerous ==> !r.rejected && !r.approved && r.memory == m)
      && (!c.dangerous ==>
            && (!r.rejected <==>
                  && (c.sensitive ==> personal.granted)
                  && (!c.sensitive && c.write ==> write.granted)
                  && (c.expensive && !batchApproved && !s.autoApprove ==> cost.granted))
            && (r.approved <==> !r.rejected && (c.sensitive || c.write || (c.expensive && (batchApproved || !s.autoApprove)))))
  {
    hide RunGate;
  }

  // ---- Three refusals -----------------------------------------------------------------------------

  predicate Refused(e: Event, tool: string) { e.Answered? && Counts(e.gate, tool) && e.response == "n" }

  predicate Allowed(e: Event, tool: string) {
    e.Answered? && Counts(e.gate, tool) && (e.response == "y" || e.response == "a")
  }

  /** These places hold refusals, and nothing was allowed since the first of them. */
  predicate RefusedAt(log: seq<Event>, tool: string, at: seq<nat>) {
    && (forall i, j | 0 <= i < j < |at| :: at[i] < at[j])
    && (forall i | 0 <= i < |at| :: at[i] < |log| && Refused(log[at[i]], tool))
    && (at != [] ==> forall k | at[0] <= k < |log| :: !Allowed(log[k], tool))
  }

  lemma CountsIsTracked(g: Gate, tool: string)
    ensures TrackedTool(g) == Some(tool) <==> Counts(g, tool)
  {
  }

  /** Some places for as many refusals as the counter says. */
  lemma {:induction false} RefusalsFound(log: seq<Event>, tool: string) returns (at: seq<nat>)
    ensures |at| == Denials(log, tool) && RefusedAt(log, tool, at)
  {
    hide Counts, TrackedTool;
    if log == [] {
      return [];
    }
    var e, before := log[|log| - 1], log[..|log| - 1];
    at := RefusalsFound(before, tool);
    if e.Answered? {
      CountsIsTracked(e.gate, tool);
      if Refused(e, tool) {
        at := at + [|before|];
      } else if Allowed(e, tool) {
        at := [];
      }
    }
  }

  /** And never places for more. */
  lemma {:induction false} RefusalsCounted(log: seq<Event>, tool: string, at: seq<nat>)
    requires RefusedAt(log, tool, at)
    ensures |at| <= Denials(log, tool)
    decreases |log|
  {
    hide Counts, TrackedTool;
    if at != [] {
      assert at[0] < |log|;
      var e, before := log[|log| - 1], log[..|log| - 1];
      if e.Answered? {
        CountsIsTracked(e.gate, tool);
      }
      var n := |at| - 1;
      if at[n] == |before| {
        assert RefusedAt(before, tool, at[..n]);
        RefusalsCounted(before, tool, at[..n]);
      } else {
        assert RefusedAt(before, tool, at);
        RefusalsCounted(before, tool, at);
      }
    }
  }

  /** In every run, a tool is struck out exactly when three answers of its write, cost, cached
      declared or bash gates were refusals and none of them since was a grant. */
  lemma StruckIffThreeRefusals(states: seq<Session>, actions: seq<ApprovalRuns.Action>, j: nat, tool: string)
    requires Run(states, actions) && j < |states|
    ensures Streak(states[j].memory, tool) >= 3 <==>
      exists at: seq<nat> :: |at| == 3 && RefusedAt(states[j].log, tool, at)
  {
    CounterIsTrailingDenials(states, actions, j, tool);
    hide Run;
    if Streak(states[j].memory, tool) >= 3 {
      var at := RefusalsFound(states[j].log, tool);
      assert RefusedAt(states[j].log, tool, at);
    }
    if at: seq<nat> :| |at| == 3 && RefusedAt(states[j].log, tool, at) {
      RefusalsCounted(states[j].log, tool, at);
    }
  }

  /** Once there are three, a look at any gate of the tool but an MCP gate denies without
      asking, unless an open or standing permission grants it. */
  lemma StruckDenies(
    states: seq<Session>, actions: seq<ApprovalRuns.Action>, j: nat, at: seq<nat>, s: Switches, g: Gate, answer: Answer)
    requires Run(states, actions) && j < |states| && !g.McpGate?
    requires |at| == 3 && RefusedAt(states[j].log, if g.BashGate? then "run_bash" else g.name, at)
    ensures var m := states[j].memory;
      var run := RunGate(s, m, g, answer);
      && run.memory == m
      && |run.moves| == 1
      && (run.granted <==>
            && (g.WriteGate? || g.CostGate? || (g.DeclaredGate? && !g.perInvocation))
            && (|| s.skip || s.hitlLevel == 0
                || (if g.WriteGate? then "write" else if g.CostGate? then "cost" else "") in m.categories
                || (g.name != "" && g.name in m.tools)))
  {
    var tool, m := if g.BashGate? then "run_bash" else g.name, states[j].memory;
    CounterIsTrailingDenials(states, actions, j, tool);
    RefusalsCounted(states[j].log, tool, at);
    RuledExactly(s, m, g);
    hide Run, Rule, Settled, Response, PromptMoves, RefusedAt, Denials, Streak;
  }

  // ---- Whole trails ---------------------------------------------------------------------------------

  function Made(moves: seq<Move>): (made: seq<State>)
    ensures |made| == |moves| && forall i | 0 <= i < |moves| :: made[i] == moves[i].state
  {
    seq(|moves|, i requires 0 <= i < |moves| => moves[i].state)
  }

  /** Legal all the way, and over: nothing may follow. */
  predicate Whole(from: State, moves: seq<Move>) {
    LegalPath(from, moves) && EndState(from, moves) in {Executed, Skipped}
  }

  lemma WholeSplits(from: State, moves: seq<Move>)
    requires from !in {Executed, Skipped}
    ensures Whole(from, moves) <==>
      moves != [] && Legal(from, moves[0].state) && Whole(moves[0].state, moves[1..])
    ensures moves != [] ==> Made(moves) != [] && Made(moves)[0] == moves[0].state && Made(moves)[1..] == Made(moves[1..])
    ensures moves == [] ==> Made(moves) == []
  {
  }

  lemma OverIsOver(from: State, moves: seq<Move>)
    requires from in {Executed, Skipped}
    ensures Whole(from, moves) <==> Made(moves) == []
  {
    if moves == [] {
      assert Made(moves) == [];
    }
  }

  /** The grammar of whole approvals: a request is settled at once, or displayed; what is
      displayed is denied unanswered, or answered, parsed and then settled; a denial is skipped,
      and a grant is carried out or skipped, propagated before or not. */
  predicate Ends(made: seq<State>) { made == [Executed] || made == [Skipped] }
  predicate Carried(made: seq<State>) { Ends(made) || (made != [] && made[0] == Propagated && Ends(made[1..])) }
  predicate Settles(made: seq<State>) {
    made != [] && ((made[0] == Granted && Carried(made[1..])) || (made[0] == Denied && made[1..] == [Skipped]))
  }
  predicate Replied(made: seq<State>) { made != [] && made[0] == Parsed && Settles(made[1..]) }
  predicate Asked(made: seq<State>) {
    made != [] && ((made[0] == Denied && made[1..] == [Skipped]) || (made[0] == UserSelected && Replied(made[1..])))
  }
  predicate Handled(made: seq<State>) { Settles(made) || (made != [] && made[0] == Displayed && Asked(made[1..])) }
  predicate Approval(made: seq<State>) { made != [] && made[0] == Requested && Handled(made[1..]) }

  lemma EndingTrails(moves: seq<Move>)
    ensures Whole(Propagated, moves) <==> Ends(Made(moves))
    ensures Whole(Denied, moves) <==> Made(moves) == [Skipped]
  {
    WholeSplits(Propagated, moves);
    WholeSplits(Denied, moves);
    if moves != [] && moves[0].state in {Executed, Skipped} {
      OverIsOver(moves[0].state, moves[1..]);
    }
    HeadAndTail(Made(moves));
    hide Whole, Made;
  }

  lemma HeadAndTail(made: seq<State>)
    ensures forall x: State :: made == [x] <==> made != [] && made[0] == x && made[1..] == []
  {
  }

  lemma GrantedTrails(moves: seq<Move>)
    ensures Whole(Granted, moves) <==> Carried(Made(moves))
  {
    WholeSplits(Granted, moves);
    HeadAndTail(Made(moves));
    if moves != [] {
      EndingTrails(moves[1..]);
      if moves[0].state in {Executed, Skipped} {
        OverIsOver(moves[0].state, moves[1..]);
      }
    }
    hide Whole, Made;
  }

  lemma SettledTrails(moves: seq<Move>)
    ensures Whole(Parsed, moves) <==> Settles(Made(moves))
  {
    WholeSplits(Parsed, moves);
    if moves != [] {
      GrantedTrails(moves[1..]);
      EndingTrails(moves[1..]);
    }
    hide Whole, Made, Carried;
  }

  lemma DisplayedTrails(moves: seq<Move>)
    ensures Whole(UserSelected, moves) <==> Replied(Made(moves))
    ensures Whole(Displayed, moves) <==> Asked(Made(moves))
    decreases |moves|
  {
    WholeSplits(UserSelected, moves);
    WholeSplits(Displayed, moves);
    if moves != [] {
      SettledTrails(moves[1..]);
      EndingTrails(moves[1..]);
      DisplayedTrails(moves[1..]);
    }
    hide Whole, Made, Settles;
  }

  /** The legal trails from nothing to the end of an approval are those of the grammar. */
  lemma WholeTrails(moves: seq<Move>)
    ensures Whole(Unset, moves) <==> Approval(Made(moves))
  {
    WholeSplits(Unset, moves);
    if moves != [] {
      RequestedTrails(moves[1..]);
    }
    hide Whole, Made, Handled;
  }

  lemma RequestedTrails(moves: seq<Move>)
    ensures Whole(Requested, moves) <==> Handled(Made(moves))
  {
    WholeSplits(Requested, moves);
    if moves != [] {
      GrantedTrails(moves[1..]);
      EndingTrails(moves[1..]);
      DisplayedTrails(moves[1..]);
    }
    hide Whole, Made, Carried, Asked;
  }
}
