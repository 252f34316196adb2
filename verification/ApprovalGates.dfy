/** The approval gates: what each one checks, asks, remembers and records. */
module ApprovalGates {
  import opened Prelude
  import opened PythonText
  import opened ApprovalRecords

  /** What the session remembers: standing permissions and denial streaks. */
  datatype Memory = Memory(tools: set<string>, categories: set<string>, denials: map<string, nat>)

  const NOTHING := Memory({}, {}, map[])
  const THRESHOLD := 3
  const BASH := "run_bash"

  datatype Gate =
    | WriteGate(name: string)
    | CostGate(name: string)
    | DeclaredGate(name: string, perInvocation: bool)
    | SensitiveGate(name: string)
    | McpGate(server: string, name: string)
    | BashGate

  /** How a prompt comes back: decided by a public hook, refused because nobody can be
      asked, answered over IPC, typed on the console, or interrupted there. */
  datatype Answer =
    | PublicHook(allow: bool)
    | NoHuman
    | Ipc(decision: string)
    | Typed(raw: string)
    | Interrupted

  /** The switches a gate reads when it runs. */
  datatype Switches = Switches(skip: bool, hitlLevel: int, autoApprove: bool)

  datatype Key = Category(name: string) | Tool(name: string)

  datatype Ruling = Automatic(reason: string) | Struck | Ask

  datatype Outcome = Outcome(memory: Memory, granted: bool, moves: seq<Move>)

  // ---- The pieces of a gate ------------------------------------------------------------------

  function ToolOf(g: Gate): string {
    if g.BashGate? then BASH else g.name
  }

  /** The tool whose streak an answer at this gate feeds. */
  function TrackedTool(g: Gate): Option<string> {
    if g.WriteGate? || g.CostGate? || g.BashGate? || (g.DeclaredGate? && !g.perInvocation)
    then Some(ToolOf(g)) else None
  }

  predicate ChecksStreak(g: Gate) { !g.McpGate? }

  predicate AllowsAlways(g: Gate) { !g.SensitiveGate? && !(g.DeclaredGate? && g.perInvocation) }

  /** What answering `a` at this gate permits from then on. */
  function StandingKey(g: Gate): Option<Key> {
    match g
    case WriteGate(_) => Some(Category("write"))
    case CostGate(_) => Some(Category("cost"))
    case BashGate => Some(Category("bash"))
    case McpGate(server, _) => Some(Category("mcp:" + server))
    case DeclaredGate(tool, perInvocation) => if perInvocation then None else Some(Tool(tool))
    case SensitiveGate(_) => None
  }

  predicate Holds(m: Memory, k: Key) {
    match k case Category(c) => c in m.categories case Tool(t) => t in m.tools
  }

  function Streak(m: Memory, tool: string): nat {
    if tool in m.denials then m.denials[tool] else 0
  }

  function AutoReason(s: Switches, m: Memory, category: string, tool: string): string {
    if s.skip then "auto:skip-permissions"
    else if s.hitlLevel == 0 then "auto:hitl-open"
    else if category in m.categories then "auto:always-category:" + category
    else if tool != "" && tool in m.tools then "auto:always-tool"
    else ""
  }

  /** The automatic grant a gate looks for inside the lock; the MCP and bash gates look
      only before they queue for it, and the personal-data gate never does. */
  function GateReason(s: Switches, m: Memory, g: Gate): string {
    match g
    case WriteGate(tool) => AutoReason(s, m, "write", tool)
    case CostGate(tool) => AutoReason(s, m, "cost", tool)
    case DeclaredGate(tool, perInvocation) => if perInvocation then "" else AutoReason(s, m, "", tool)
    case _ => ""
  }

  predicate StruckOut(m: Memory, tool: string) { Streak(m, tool) >= THRESHOLD }

  function StrikeOrAsk(m: Memory, g: Gate): Ruling {
    if ChecksStreak(g) && StruckOut(m, ToolOf(g)) then Struck else Ask
  }

  function Rule(s: Switches, m: Memory, g: Gate): Ruling {
    if GateReason(s, m, g) != "" then Automatic(GateReason(s, m, g)) else StrikeOrAsk(m, g)
  }

  function Counted(denials: map<string, nat>, tool: string, decision: string): map<string, nat> {
    if decision == "n" then denials[tool := (if tool in denials then denials[tool] else 0) + 1]
    else if decision == "y" || decision == "a" then denials - {tool}
    else denials
  }

  function Learned(m: Memory, k: Key): Memory {
    match k
    case Category(c) => m.(categories := m.categories + {c})
    case Tool(t) => m.(tools := m.tools + {t})
  }

  /** What an answer leaves in memory. */
  function Settled(m: Memory, g: Gate, response: string): Memory {
    var counted := if TrackedTool(g).Some? then m.(denials := Counted(m.denials, TrackedTool(g).value, response)) else m;
    if response == "a" && StandingKey(g).Some? then Learned(counted, StandingKey(g).value) else counted
  }

  predicate Grants(g: Gate, response: string) {
    response == "y" || (response == "a" && !g.SensitiveGate?)
  }

  // ---- The prompt ------------------------------------------------------------------------------

  function Clip(s: string, n: nat): string {
    if |s| <= n then s else s[..n]
  }

  function Narrowed(decision: string, allowAlways: bool): string {
    if !allowAlways && decision == "a" then "n" else decision
  }

  function Response(answer: Answer, allowAlways: bool): string {
    match answer
    case PublicHook(allow) => if allow then "y" else "n"
    case NoHuman => "n"
    case Ipc(decision) => Narrowed(decision, allowAlways)
    case Typed(raw) => Narrowed(ParseDecision(raw).0, allowAlways)
    case Interrupted => "n"
  }

  predicate Shown(answer: Answer) { answer.Ipc? || answer.Typed? || answer.Interrupted? }

  function PromptMoves(answer: Answer, allowAlways: bool): seq<Move> {
    match answer
    case PublicHook(_) => []
    case NoHuman => []
    case Ipc(decision) =>
      var d := Narrowed(decision, allowAlways);
      [Move(Displayed, "ipc"), Move(UserSelected, d), Move(Parsed, VerdictOf(d))]
    case Typed(raw) =>
      var verdict := if !allowAlways && ParseDecision(raw).0 == "a" then DENY else ParseDecision(raw).1;
      [Move(Displayed, "console"), Move(UserSelected, Clip(Strip(raw), 20)), Move(Parsed, verdict)]
    case Interrupted =>
      [Move(Displayed, "console"), Move(UserSelected, "<interrupt>"), Move(Parsed, DENY)]
  }

  function Verdict(granted: bool, detail: string): Move {
    Move(if granted then Granted else Denied, detail)
  }

  /** What a gate does once it is ruled on: nothing is remembered unless somebody was asked. */
  function Concluded(m: Memory, g: Gate, ruling: Ruling, answer: Answer): Outcome {
    match ruling
    case Automatic(reason) => Outcome(m, true, [Verdict(true, reason)])
    case Struck => Outcome(m, false, [Verdict(false, "auto_denied:3-strikes")])
    case Ask =>
      var response := Response(answer, AllowsAlways(g));
      Outcome(Settled(m, g, response), Grants(g, response),
              PromptMoves(answer, AllowsAlways(g)) + [Verdict(Grants(g, response), "user:" + response)])
  }

  function RunGate(s: Switches, m: Memory, g: Gate, answer: Answer): Outcome {
    Concluded(m, g, Rule(s, m, g), answer)
  }

  // ---- No lost decision --------------------------------------------------------------------------

  lemma ThreeMoves(a: Move, b: Move, c: Move, d: Move)
    ensures EndState(Requested, [a, b, c] + [d]) == d.state
    ensures LegalPath(Requested, [a, b, c] + [d]) <==>
      Legal(Requested, a.state) && Legal(a.state, b.state) && Legal(b.state, c.state) && Legal(c.state, d.state)
  {
    var moves := [a, b, c] + [d];
    OneMove(c.state, d);
    assert [c, d][1..] == [d];
    assert LegalPath(b.state, [c, d]) <==> Legal(b.state, c.state) && LegalPath(c.state, [d]);
    assert moves[1..] == [b, c, d] && [b, c, d][1..] == [c, d];
  }

  lemma OneMove(from: State, d: Move)
    ensures EndState(from, [d]) == d.state
    ensures LegalPath(from, [d]) <==> Legal(from, d.state)
    ensures [] + [d] == [d]
  {
    assert [d][1..] == [];
  }

  /** Every gate run that starts at `requested` makes only legal moves and ends granted or
      denied, as it answers; and if a prompt was displayed, it ends granted exactly when
      the verdict written into the record is an allow or an always. */
  lemma NoLostDecision(s: Switches, m: Memory, g: Gate, answer: Answer, t: Trail)
    requires t.state == Requested
    ensures var run := RunGate(s, m, g, answer);
      var after := Followed(t, run.moves);
      && LegalPath(Requested, run.moves)
      && (Clean(t) ==> Clean(after))
      && after.state == (if run.granted then Granted else Denied)
      && (Rule(s, m, g) == Ask && Shown(answer) ==> (run.granted <==> after.verdict in {ALLOW, ALWAYS}))
      && (!(Rule(s, m, g) == Ask && Shown(answer)) ==> after.verdict == t.verdict)
  {
    hide Strip, Lower, Followed, Rule, GateReason, StrikeOrAsk, Settled;
    var run := RunGate(s, m, g, answer);
    var ruling := Rule(s, m, g);
    if ruling == Ask && Shown(answer) {
      ShownDecision(g, answer, t);
    } else {
      var d := run.moves[0];
      QuietMoves(m, g, ruling, answer);
      OneMove(Requested, d);
      FollowedOnce(t, [], d);
      assert Followed(t, []) == t by { NoMoves(t); }
    }
    CleanIffLegal(t, run.moves);
  }

  lemma NoMoves(t: Trail)
    ensures Followed(t, []) == t
  {
  }

  lemma QuietMoves(m: Memory, g: Gate, ruling: Ruling, answer: Answer)
    requires !(ruling == Ask && Shown(answer))
    ensures var run := Concluded(m, g, ruling, answer);
      |run.moves| == 1 && run.moves == [run.moves[0]] && run.moves[0].state == (if run.granted then Granted else Denied)
  {
    hide Settled, ParseDecision;
  }

  lemma ShownDecision(g: Gate, answer: Answer, t: Trail)
    requires t.state == Requested && Shown(answer)
    ensures var response := Response(answer, AllowsAlways(g));
      var moves := PromptMoves(answer, AllowsAlways(g)) + [Verdict(Grants(g, response), "user:" + response)];
      var after := Followed(t, moves);
      && LegalPath(Requested, moves)
      && after.state == (if Grants(g, response) then Granted else Denied)
      && (Grants(g, response) <==> after.verdict in {ALLOW, ALWAYS})
  {
    hide Followed, Strip, Lower, LegalPath, EndState;
    var response := Response(answer, AllowsAlways(g));
    var shown := PromptMoves(answer, AllowsAlways(g));
    var last := Verdict(Grants(g, response), "user:" + response);
    assert |shown| == 3 && shown == [shown[0], shown[1], shown[2]];
    ThreeMoves(shown[0], shown[1], shown[2], last);
    FollowedFour(t, shown[0], shown[1], shown[2], last);
    if answer.Typed? {
      ParserMatchesTable(answer.raw);
    }
  }

  lemma FollowedFour(t: Trail, a: Move, b: Move, c: Move, d: Move)
    ensures Followed(t, [a, b, c] + [d]) == Extended(Extended(Extended(Extended(t, a), b), c), d)
  {
    FollowedThree(t, a, b, c);
    FollowedOnce(t, [a, b, c], d);
  }

  lemma FollowedThree(t: Trail, a: Move, b: Move, c: Move)
    ensures Followed(t, [a, b, c]) == Extended(Extended(Extended(t, a), b), c)
  {
    FollowedOnce(t, [], a);
    assert [] + [a] == [a];
    FollowedOnce(t, [a], b);
    assert [a] + [b] == [a, b];
    FollowedOnce(t, [a, b], c);
    assert [a, b] + [c] == [a, b, c];
  }

  // ---- A tool that falls under two gates --------------------------------------------------

  datatype ToolClass = ToolClass(dangerous: bool, sensitive: bool, write: bool, expensive: bool)

  datatype Safety = Safety(memory: Memory, rejected: bool, approved: bool, moves: seq<Move>)

  function FirstGate(tool: string, c: ToolClass): Option<Gate> {
    if c.sensitive then Some(SensitiveGate(tool)) else if c.write then Some(WriteGate(tool)) else None
  }

  predicate RunsSecond(s: Switches, c: ToolClass, batchApproved: bool) {
    c.expensive && (batchApproved || !s.autoApprove)
  }

  function SecondOutcome(s: Switches, m: Memory, tool: string, batchApproved: bool, answer: Answer): Outcome {
    if batchApproved then Outcome(m, true, [Verdict(true, "batch:cost-approved")])
    else RunGate(s, m, CostGate(tool), answer)
  }

  /** `apply_safety_gates_async`: at most one of the first two gates, then the cost gate. */
  function SafetyGates(
    s: Switches, m: Memory, tool: string, c: ToolClass, batchApproved: bool, first: Answer, second: Answer): Safety
  {
    if c.dangerous then Safety(m, false, false, [])
    else
      var start := if FirstGate(tool, c).Some? then RunGate(s, m, FirstGate(tool, c).value, first) else Outcome(m, false, []);
      if FirstGate(tool, c).Some? && !start.granted then Safety(start.memory, true, false, start.moves)
      else if RunsSecond(s, c, batchApproved) then
        var next := SecondOutcome(s, start.memory, tool, batchApproved, second);
        if next.granted then Safety(next.memory, false, true, start.moves + next.moves)
        else Safety(next.memory, true, false, start.moves + next.moves)
      else Safety(start.memory, false, start.granted, start.moves)
  }

  /** The trail of a tool stays legal if and only if it does not pass one gate and then
      meet a second. */
  lemma LegalIffOneGate(
    s: Switches, m: Memory, tool: string, c: ToolClass, batchApproved: bool, first: Answer, second: Answer)
    requires !c.dangerous
    ensures LegalPath(Requested, SafetyGates(s, m, tool, c, batchApproved, first, second).moves) <==>
      !(&& FirstGate(tool, c).Some?
        && RunGate(s, m, FirstGate(tool, c).value, first).granted
        && RunsSecond(s, c, batchApproved))
  {
    hide RunGate, SecondOutcome, LegalPath;
    var t := EMPTY.(state := Requested);
    NoMoves(t);
    EmptyPath();
    var start := if FirstGate(tool, c).Some? then RunGate(s, m, FirstGate(tool, c).value, first) else Outcome(m, false, []);
    if FirstGate(tool, c).Some? {
      NoLostDecision(s, m, FirstGate(tool, c).value, first, t);
      CleanIffLegal(t, start.moves);
    }
    if RunsSecond(s, c, batchApproved) && !(FirstGate(tool, c).Some? && !start.granted) {
      SecondFromRequested(s, start.memory, tool, batchApproved, second);
      var next := SecondOutcome(s, start.memory, tool, batchApproved, second);
      if start.granted {
        NeverLegalAfterGrant(start.moves, next.moves);
      } else {
        assert start.moves + next.moves == next.moves;
      }
    }
  }

  lemma EmptyPath()
    ensures LegalPath(Requested, [])
  {
  }

  lemma SecondFromRequested(s: Switches, m: Memory, tool: string, batchApproved: bool, answer: Answer)
    ensures var next := SecondOutcome(s, m, tool, batchApproved, answer);
      next.moves != [] && LegalPath(Requested, next.moves) && next.moves[0].state in {Displayed, Granted, Denied}
  {
    hide RunGate;
    if batchApproved {
      OneMove(Requested, Verdict(true, "batch:cost-approved"));
    } else {
      NoLostDecision(s, m, CostGate(tool), answer, EMPTY.(state := Requested));
      NoMoves(EMPTY.(state := Requested));
    }
  }

  /** From `granted` no gate's first move is legal. */
  lemma {:induction false} NeverLegalAfterGrant(first: seq<Move>, next: seq<Move>)
    requires first != [] && EndState(Requested, first) == Granted
    requires next != [] && next[0].state in {Displayed, Granted, Denied}
    ensures !LegalPath(Requested, first + next)
  {
    LegalUpTo(Requested, first, next);
  }

  lemma {:induction false} LegalUpTo(from: State, first: seq<Move>, next: seq<Move>)
    ensures LegalPath(from, first + next) ==> LegalPath(EndState(from, first), next)
    decreases |first|
  {
    if first == [] {
      assert first + next == next;
    } else {
      assert (first + next)[1..] == first[1..] + next;
      LegalUpTo(first[0].state, first[1..], next);
    }
  }
}
