/** The approval workflow of one session: the object whose gates change its memory and
    write the record, each method proved against the gate it implements. */
module ApprovalWorkflows {
  import opened Prelude
  import opened PythonText
  import opened ApprovalRecords
  import opened ApprovalGates

  function BatchMoves(s: Switches, m: Memory, count: string, answer: Answer): seq<Move>
  {
    [Move(Requested, "batch:" + count)] + BatchRest(s, m, answer)
  }

  function BatchReason(s: Switches, m: Memory): string {
    if s.skip then "auto:skip-permissions"
    else if s.hitlLevel == 0 then "auto:hitl-open"
    else if s.autoApprove then "auto:auto-approve"
    else if "cost" in m.categories then "auto:always-category:cost"
    else ""
  }

  /** The batch prompt reads the console only, and has no always answer. */
  predicate BatchAllows(answer: Answer) {
    answer.Typed? && Lower(Strip(answer.raw)) in ["", "y", "yes"]
  }

  function BatchRest(s: Switches, m: Memory, answer: Answer): seq<Move> {
    if BatchReason(s, m) != "" then [Verdict(true, BatchReason(s, m))]
    else
      [Move(Displayed, "console"),
       Move(UserSelected, if answer.Typed? then Clip(Strip(answer.raw), 20) else "<interrupt>"),
       Move(Parsed, if BatchAllows(answer) then ALLOW else DENY)]
      + [Verdict(BatchAllows(answer), "batch-decision")]
  }

  /** The shared decision of a batch is not lost either: a legal trail that ends granted
      exactly when the batch is allowed, and, once displayed, when its verdict is allow. */
  lemma BatchNoLostDecision(s: Switches, m: Memory, count: string, answer: Answer)
    ensures var moves := BatchMoves(s, m, count, answer);
      var after := Followed(EMPTY, moves);
      && LegalPath(Unset, moves) && Clean(after)
      && after.state in {Granted, Denied}
      && (after.state == Granted <==> BatchReason(s, m) != "" || BatchAllows(answer))
      && (BatchReason(s, m) == "" ==> (after.state == Granted <==> after.verdict == ALLOW))
  {
    hide Strip, Lower, Followed, LegalPath, EndState, BatchReason;
    var rest := BatchRest(s, m, answer);
    var requested := Move(Requested, "batch:" + count);
    var t := Extended(EMPTY, requested);
    assert BatchMoves(s, m, count, answer)[1..] == rest;
    StepThenPath(requested, rest);
    FollowedTwice(EMPTY, [requested], rest);
    FollowedOnce(EMPTY, [], requested);
    NoMoves(EMPTY);
    assert [] + [requested] == [requested];
    if BatchReason(s, m) != "" {
      OneMove(Requested, rest[0]);
      FollowedOnce(t, [], rest[0]);
      NoMoves(t);
    } else {
      var shown := rest[..3];
      assert rest == [rest[0], rest[1], rest[2]] + [rest[3]];
      ThreeMoves(rest[0], rest[1], rest[2], rest[3]);
      FollowedFour(t, rest[0], rest[1], rest[2], rest[3]);
    }
    CleanIffLegal(EMPTY, BatchMoves(s, m, count, answer));
  }

  lemma StepThenPath(m: Move, rest: seq<Move>)
    ensures LegalPath(Unset, [m] + rest) <==> Legal(Unset, m.state) && LegalPath(m.state, rest)
  {
    assert ([m] + rest)[1..] == rest;
  }

  class ApprovalWorkflow {
    const hitlLevel: int
    var autoApprove: bool
    var alwaysTools: set<string>
    var alwaysCategories: set<string>
    var denialCounts: map<string, nat>
    var mcpServers: set<string>
    var computerApproved: bool

    ghost function View(): Memory
      reads this
    {
      Memory(alwaysTools, alwaysCategories, denialCounts)
    }

    ghost function Now(skip: bool): Switches
      reads this
    {
      Switches(skip, hitlLevel, autoApprove)
    }

    /** The flags that gates never touch. */
    twostate predicate KeepsFlags()
      reads this
    {
      autoApprove == old(autoApprove) && mcpServers == old(mcpServers) && computerApproved == old(computerApproved)
    }

    constructor (autoApprove: bool, hitlLevel: int)
      ensures View() == NOTHING && mcpServers == {} && !computerApproved
      ensures this.autoApprove == autoApprove && this.hitlLevel == hitlLevel
    {
      this.autoApprove, this.hitlLevel := autoApprove, hitlLevel;
      alwaysTools, alwaysCategories, denialCounts := {}, {}, map[];
      mcpServers, computerApproved := {}, false;
    }

    method RecordTransition(record: ApprovalRecord?, state: State, detail: string)
      modifies record
      ensures record != null ==> record.View() == Extended(old(record.View()), Move(state, detail))
    {
      if record == null {
        return;
      }
      record.Transition(state, detail);
    }

    method AutoGrantReason(skip: bool, category: string, tool: string) returns (reason: string)
      ensures reason == AutoReason(Now(skip), View(), category, tool)
    {
      if skip {
        return "auto:skip-permissions";
      }
      if hitlLevel == 0 {
        return "auto:hitl-open";
      }
      if category in alwaysCategories {
        return "auto:always-category:" + category;
      }
      if tool != "" && tool in alwaysTools {
        return "auto:always-tool";
      }
      return "";
    }

    method TrackDecision(tool: string, decision: string)
      modifies this
      ensures View() == old(View()).(denials := Counted(old(denialCounts), tool, decision))
      ensures KeepsFlags()
    {
      if decision == "n" {
        denialCounts := denialCounts[tool := (if tool in denialCounts then denialCounts[tool] else 0) + 1];
      } else if decision == "y" || decision == "a" {
        denialCounts := denialCounts - {tool};
      }
    }

    method CheckAutoDeny(tool: string) returns (struck: bool)
      ensures struck <==> StruckOut(View(), tool)
    {
      struck := (if tool in denialCounts then denialCounts[tool] else 0) >= THRESHOLD;
    }

    /** `prompt_with_always`. */
    method PromptWithAlways(record: ApprovalRecord?, answer: Answer, allowAlways: bool) returns (decision: string)
      requires Shown(answer)
      modifies record
      ensures decision == Response(answer, allowAlways)
      ensures record != null ==> record.View() == Followed(old(record.View()), PromptMoves(answer, allowAlways))
    {
      hide Followed, Strip, Lower, Extended;
      ghost var moves := PromptMoves(answer, allowAlways);
      assert moves == [moves[0], moves[1], moves[2]];
      if record != null {
        FollowedThree(record.View(), moves[0], moves[1], moves[2]);
      }
      if answer.Ipc? {
        decision := answer.decision;
        if !allowAlways && decision == "a" {
          decision := "n";
        }
        RecordTransition(record, Displayed, "ipc");
        RecordTransition(record, UserSelected, decision);
        RecordTransition(record, Parsed, VerdictOf(decision));
        return;
      }
      RecordTransition(record, Displayed, "console");
      if answer.Interrupted? {
        RecordTransition(record, UserSelected, "<interrupt>");
        RecordTransition(record, Parsed, DENY);
        return "n";
      }
      RecordTransition(record, UserSelected, Clip(Strip(answer.raw), 20));
      var parsed := ParseDecision(answer.raw);
      decision := parsed.0;
      var verdict := parsed.1;
      if !allowAlways && decision == "a" {
        decision, verdict := "n", DENY;
      }
      RecordTransition(record, Parsed, verdict);
    }

    /** `prompt_with_always_async`: a public hook or a session without a human decides
        before anything is displayed. */
    method PromptWithAlwaysAsync(record: ApprovalRecord?, answer: Answer, allowAlways: bool) returns (decision: string)
      modifies record
      ensures decision == Response(answer, allowAlways)
      ensures record != null ==> record.View() == Followed(old(record.View()), PromptMoves(answer, allowAlways))
    {
      if answer.PublicHook? {
        return if answer.allow then "y" else "n";
      }
      if answer.NoHuman? {
        return "n";
      }
      decision := PromptWithAlways(record, answer, allowAlways);
    }

    /** What a gate leaves behind, in memory and in the record. */
    twostate predicate Did(record: ApprovalRecord?, granted: bool, o: Outcome)
      reads this, record
    {
      && View() == o.memory
      && granted == o.granted
      && (record != null ==> record.View() == Followed(old(record.View()), o.moves))
      && KeepsFlags()
    }

    method AutoGrant(record: ApprovalRecord?, reason: string)
      modifies record
      ensures record != null ==> record.View() == Followed(old(record.View()), [Verdict(true, reason)])
    {
      if record != null {
        SingleMove(record.View(), Verdict(true, reason));
      }
      RecordTransition(record, Granted, reason);
    }

    method StrikeDenial(record: ApprovalRecord?)
      modifies record
      ensures record != null ==> record.View() == Followed(old(record.View()), [Verdict(false, "auto_denied:3-strikes")])
    {
      if record != null {
        SingleMove(record.View(), Verdict(false, "auto_denied:3-strikes"));
      }
      RecordTransition(record, Denied, "auto_denied:3-strikes");
    }

    static lemma SingleMove(t: Trail, m: Move)
      ensures Followed(t, [m]) == Extended(t, m)
    {
      FollowedOnce(t, [], m);
      assert [] + [m] == [m];
    }

    method ConfirmWrite(tool: string, record: ApprovalRecord?, answer: Answer) returns (granted: bool)
      modifies this, record
      ensures Did(record, granted, Concluded(old(View()), WriteGate(tool), StrikeOrAsk(old(View()), WriteGate(tool)), answer))
    {
      hide Followed, PromptMoves, Response, Extended, Counted;
      var struck := CheckAutoDeny(tool);
      if struck {
        StrikeDenial(record);
        return false;
      }
      ghost var trail := if record == null then EMPTY else record.View();
      var response := PromptWithAlwaysAsync(record, answer, true);
      FollowedOnce(trail, PromptMoves(answer, true), Verdict(response == "a" || response == "y", "user:" + response));
      TrackDecision(tool, response);
      if response == "a" || response == "y" {
        if response == "a" {
          alwaysCategories := alwaysCategories + {"write"};
        }
        RecordTransition(record, Granted, "user:" + response);
        return true;
      }
      RecordTransition(record, Denied, "user:" + response);
      return false;
    }

    method ConfirmCost(tool: string, record: ApprovalRecord?, answer: Answer) returns (granted: bool)
      modifies this, record
      ensures Did(record, granted, Concluded(old(View()), CostGate(tool), StrikeOrAsk(old(View()), CostGate(tool)), answer))
    {
      hide Followed, PromptMoves, Response, Extended, Counted;
      var struck := CheckAutoDeny(tool);
      if struck {
        StrikeDenial(record);
        return false;
      }
      ghost var trail := if record == null then EMPTY else record.View();
      var response := PromptWithAlwaysAsync(record, answer, true);
      FollowedOnce(trail, PromptMoves(answer, true), Verdict(response == "a" || response == "y", "user:" + response));
      TrackDecision(tool, response);
      if response == "a" || response == "y" {
        if response == "a" {
          alwaysCategories := alwaysCategories + {"cost"};
        }
        RecordTransition(record, Granted, "user:" + response);
        return true;
      }
      RecordTransition(record, Denied, "user:" + response);
      return false;
    }

    method ConfirmSensitive(tool: string, record: ApprovalRecord?, answer: Answer) returns (granted: bool)
      modifies this, record
      ensures Did(record, granted, RunGate(old(Now(false)), old(View()), SensitiveGate(tool), answer))
    {
      hide Followed, PromptMoves, Response, Extended;
      var struck := CheckAutoDeny(tool);
      if struck {
        StrikeDenial(record);
        return false;
      }
      ghost var trail := if record == null then EMPTY else record.View();
      var response := PromptWithAlwaysAsync(record, answer, false);
      NeverAlways(answer);
      FollowedOnce(trail, PromptMoves(answer, false), Verdict(response == "y", "user:" + response));
      if response == "y" {
        RecordTransition(record, Granted, "user:" + response);
        return true;
      }
      RecordTransition(record, Denied, "user:" + response);
      return false;
    }

    static lemma NeverAlways(answer: Answer)
      ensures Response(answer, false) != "a"
    {
    }

    static lemma DeclaredSettles(m: Memory, tool: string, perInvocation: bool, response: string)
      ensures var g := DeclaredGate(tool, perInvocation);
        && Grants(g, response) == (response == "y" || response == "a")
        && (perInvocation && response != "a" ==> Settled(m, g, response) == m)
        && (!perInvocation ==>
              var counted := m.(denials := Counted(m.denials, tool, response));
              Settled(m, g, response) == if response == "a" then counted.(tools := m.tools + {tool}) else counted)
    {
      hide Counted;
    }

    /** `confirm_declared_async`, inside the lock. */
    method ConfirmDeclared(skip: bool, tool: string, perInvocation: bool, record: ApprovalRecord?, answer: Answer)
      returns (granted: bool)
      modifies this, record
      ensures Did(record, granted, RunGate(old(Now(skip)), old(View()), DeclaredGate(tool, perInvocation), answer))
    {
      hide Followed, PromptMoves, Response, Extended, Counted, AutoReason, StruckOut, Settled, Grants;
      if !perInvocation {
        var reason := AutoGrantReason(skip, "", tool);
        if reason != "" {
          AutoGrant(record, reason);
          return true;
        }
      }
      var struck := CheckAutoDeny(tool);
      if struck {
        StrikeDenial(record);
        return false;
      }
      ghost var trail := if record == null then EMPTY else record.View();
      var response := PromptWithAlwaysAsync(record, answer, !perInvocation);
      NeverAlways(answer);
      DeclaredSettles(View(), tool, perInvocation, response);
      FollowedOnce(trail, PromptMoves(answer, !perInvocation), Verdict(response == "a" || response == "y", "user:" + response));
      if !perInvocation {
        TrackDecision(tool, response);
      }
      if response == "a" || response == "y" {
        if response == "a" {
          alwaysTools := alwaysTools + {tool};
        }
        RecordTransition(record, Granted, "user:" + response);
        return true;
      }
      RecordTransition(record, Denied, "user:" + response);
      return false;
    }

    /** `confirm_mcp_async`, inside the lock: nothing is checked again there. */
    method ConfirmMcp(server: string, tool: string, record: ApprovalRecord?, answer: Answer) returns (granted: bool)
      modifies this, record
      ensures Did(record, granted, RunGate(old(Now(false)), old(View()), McpGate(server, tool), answer))
    {
      hide Followed, PromptMoves, Response, Extended;
      ghost var trail := if record == null then EMPTY else record.View();
      var response := PromptWithAlwaysAsync(record, answer, true);
      FollowedOnce(trail, PromptMoves(answer, true), Verdict(response == "a" || response == "y", "user:" + response));
      if response == "a" || response == "y" {
        if response == "a" {
          alwaysCategories := alwaysCategories + {"mcp:" + server};
        }
        RecordTransition(record, Granted, "user:" + response);
        return true;
      }
      RecordTransition(record, Denied, "user:" + response);
      return false;
    }

    /** `confirm_permission_request_async`, inside the lock: one answer for one call, with no
        record, no automatic grant and nothing remembered. */
    method ConfirmPermissionRequest(answer: Answer) returns (granted: bool)
      ensures granted <==>
        (answer == PublicHook(true)
         || (answer.Ipc? && answer.decision == "y")
         || (answer.Typed? && Lower(Strip(answer.raw)) in ["", "y", "yes"]))
    {
      hide Strip, Lower;
      var response := PromptWithAlwaysAsync(null, answer, false);
      granted := response == "y";
    }

    /** `request_bash_approval_async`, inside the lock. */
    method RequestBashApproval(record: ApprovalRecord?, answer: Answer) returns (granted: bool)
      modifies this, record
      ensures Did(record, granted, RunGate(old(Now(false)), old(View()), BashGate, answer))
    {
      hide Followed, PromptMoves, Response, Extended, Counted;
      var struck := CheckAutoDeny(BASH);
      if struck {
        StrikeDenial(record);
        return false;
      }
      ghost var trail := if record == null then EMPTY else record.View();
      var response := PromptWithAlwaysAsync(record, answer, true);
      FollowedOnce(trail, PromptMoves(answer, true), Verdict(response == "a" || response == "y", "user:" + response));
      TrackDecision(BASH, response);
      if response == "a" || response == "y" {
        if response == "a" {
          alwaysCategories := alwaysCategories + {"bash"};
        }
        RecordTransition(record, Granted, "user:" + response);
        return true;
      }
      RecordTransition(record, Denied, "user:" + response);
      return false;
    }

    /** The bodies `write_gate` and `cost_gate`: the automatic grant, then the question. */
    method WriteBody(skip: bool, tool: string, record: ApprovalRecord?, answer: Answer) returns (granted: bool)
      modifies this, record
      ensures Did(record, granted, RunGate(old(Now(skip)), old(View()), WriteGate(tool), answer))
    {
      hide Followed, PromptMoves, Response, Settled, AutoReason;
      var reason := AutoGrantReason(skip, "write", tool);
      if reason != "" {
        AutoGrant(record, reason);
        return true;
      }
      granted := ConfirmWrite(tool, record, answer);
    }

    method CostBody(skip: bool, tool: string, record: ApprovalRecord?, answer: Answer) returns (granted: bool)
      modifies this, record
      ensures Did(record, granted, RunGate(old(Now(skip)), old(View()), CostGate(tool), answer))
    {
      hide Followed, PromptMoves, Response, Settled, AutoReason;
      var reason := AutoGrantReason(skip, "cost", tool);
      if reason != "" {
        AutoGrant(record, reason);
        return true;
      }
      granted := ConfirmCost(tool, record, answer);
    }

    /** `apply_safety_gates_async`. */
    method ApplySafetyGates(
      skip: bool, tool: string, c: ToolClass, batchApproved: bool, record: ApprovalRecord?, first: Answer, second: Answer)
      returns (rejected: bool, approved: bool)
      modifies this, record
      ensures var o := SafetyGates(old(Now(skip)), old(View()), tool, c, batchApproved, first, second);
        && View() == o.memory && rejected == o.rejected && approved == o.approved
        && (record != null ==> record.View() == Followed(old(record.View()), o.moves))
        && KeepsFlags()
    {
      hide Followed, RunGate, Extended, SafetyGates, SecondOutcome, FirstGate;
      ghost var s := Now(skip);
      ghost var trail := if record == null then EMPTY else record.View();
      ghost var start := Outcome(View(), false, []);
      NoMoves(trail);
      GatesInTurn(s, View(), tool, c, batchApproved, first, second);
      if c.dangerous {
        return false, false;
      }
      approved := false;
      if c.sensitive {
        start := RunGate(s, View(), SensitiveGate(tool), first);
        SensitiveIgnoresSwitches(s, Now(false), View(), tool, first);
        approved := ConfirmSensitive(tool, record, first);
        if !approved {
          return true, false;
        }
      }
      if c.write && !c.sensitive {
        start := RunGate(s, View(), WriteGate(tool), first);
        approved := WriteBody(skip, tool, record, first);
        if !approved {
          return true, false;
        }
      }
      ghost var next := SecondOutcome(s, View(), tool, batchApproved, second);
      FollowedTwice(trail, start.moves, next.moves);
      SecondIs(s, View(), tool, batchApproved, second);
      if c.expensive && batchApproved {
        AutoGrant(record, "batch:cost-approved");
        approved := true;
      } else if c.expensive && !autoApprove {
        approved := CostBody(skip, tool, record, second);
        if !approved {
          return true, false;
        }
      }
      rejected := false;
    }

    static lemma SecondIs(s: Switches, m: Memory, tool: string, batchApproved: bool, answer: Answer)
      ensures SecondOutcome(s, m, tool, batchApproved, answer) ==
        if batchApproved then Outcome(m, true, [Verdict(true, "batch:cost-approved")]) else RunGate(s, m, CostGate(tool), answer)
    {
      hide RunGate;
    }

    /** `SafetyGates`, case by case in the order the gates run. */
    static lemma GatesInTurn(
      s: Switches, m: Memory, tool: string, c: ToolClass, batchApproved: bool, first: Answer, second: Answer)
      ensures var o := SafetyGates(s, m, tool, c, batchApproved, first, second);
        var start := if c.sensitive then RunGate(s, m, SensitiveGate(tool), first)
                     else if c.write then RunGate(s, m, WriteGate(tool), first)
                     else Outcome(m, false, []);
        var next := SecondOutcome(s, start.memory, tool, batchApproved, second);
        o == if c.dangerous then Safety(m, false, false, [])
             else if (c.sensitive || c.write) && !start.granted then Safety(start.memory, true, false, start.moves)
             else if c.expensive && (batchApproved || !s.autoApprove)
             then Safety(next.memory, !next.granted, next.granted, start.moves + next.moves)
             else Safety(start.memory, false, start.granted, start.moves)
    {
      hide RunGate, SecondOutcome;
    }

    static lemma SensitiveIgnoresSwitches(s: Switches, t: Switches, m: Memory, tool: string, answer: Answer)
      ensures RunGate(s, m, SensitiveGate(tool), answer) == RunGate(t, m, SensitiveGate(tool), answer)
    {
      hide Concluded;
    }

    /** `confirm_computer_async`: asked once, then remembered, on its own flag. */
    method ConfirmComputer(skip: bool, record: ApprovalRecord?, answer: Answer) returns (granted: bool)
      modifies this, record
      ensures View() == old(View())
      ensures var remembered := skip || hitlLevel <= 1 || old(computerApproved);
        && granted == (remembered || Response(answer, true) in {"a", "y"})
        && computerApproved == (old(computerApproved) || (!remembered && granted))
        && (record != null && remembered ==>
              record.View() == Followed(old(record.View()), [Verdict(true, "auto:computer-session")]))
        && (record != null && !remembered ==>
              record.View() == Followed(old(record.View()),
                PromptMoves(answer, true) + [Verdict(granted, "user:" + Response(answer, true))]))
    {
      hide Followed, PromptMoves, Response, Extended;
      if skip || hitlLevel <= 1 || computerApproved {
        AutoGrant(record, "auto:computer-session");
        return true;
      }
      ghost var trail := if record == null then EMPTY else record.View();
      var response := PromptWithAlwaysAsync(record, answer, true);
      FollowedOnce(trail, PromptMoves(answer, true), Verdict(response == "a" || response == "y", "user:" + response));
      if response == "a" || response == "y" {
        computerApproved := true;
        RecordTransition(record, Granted, "user:" + response);
        return true;
      }
      RecordTransition(record, Denied, "user:" + response);
      return false;
    }

    /** `batch_cost_approval`, on a record of its own. */
    method BatchCostApproval(skip: bool, count: string, answer: Answer) returns (approved: bool, record: ApprovalRecord)
      ensures fresh(record)
      ensures record.View() == Followed(EMPTY, BatchMoves(Now(skip), View(), count, answer))
      ensures approved <==>
        || skip || hitlLevel == 0 || autoApprove || "cost" in alwaysCategories
        || (answer.Typed? && Lower(Strip(answer.raw)) in ["", "y", "yes"])
    {
      hide Followed, Extended, Strip, Lower;
      record := new ApprovalRecord();
      NoMoves(EMPTY);
      ghost var requested := Move(Requested, "batch:" + count);
      ghost var rest := BatchRest(Now(skip), View(), answer);
      SingleMove(EMPTY, requested);
      FollowedTwice(EMPTY, [requested], rest);
      RecordTransition(record, Requested, "batch:" + count);
      if skip {
        AutoGrant(record, "auto:skip-permissions");
        return true, record;
      }
      if hitlLevel == 0 {
        AutoGrant(record, "auto:hitl-open");
        return true, record;
      }
      if autoApprove {
        AutoGrant(record, "auto:auto-approve");
        return true, record;
      }
      if "cost" in alwaysCategories {
        AutoGrant(record, "auto:always-category:cost");
        return true, record;
      }
      assert rest == [rest[0], rest[1], rest[2]] + [rest[3]];
      FollowedFour(record.View(), rest[0], rest[1], rest[2], rest[3]);
      RecordTransition(record, Displayed, "console");
      if !answer.Typed? {
        RecordTransition(record, UserSelected, "<interrupt>");
        RecordTransition(record, Parsed, DENY);
        approved := false;
      } else {
        RecordTransition(record, UserSelected, Clip(Strip(answer.raw), 20));
        approved := Lower(Strip(answer.raw)) in ["", "y", "yes"];
        RecordTransition(record, Parsed, if approved then ALLOW else DENY);
      }
      RecordTransition(record, if approved then Granted else Denied, "batch-decision");
    }
  }
}
