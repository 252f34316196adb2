/** A run of the GEO store in which a preregistration that checked LIVE_OBSERVE ends up in
    PREFLIGHT. */
module GeoExample {
  import opened Prelude
  import opened PythonText
  import opened GeoEvidence
  import opened GeoRuns
  import opened GeoStores
  import opened GeoConcurrency

  ghost predicate Reachable(show: Value -> string, s: System) {
    exists states: seq<System>, actions: seq<Action> :: Run(show, states, actions) && states[|states| - 1] == s
  }

  lemma ReachNext(show: Value -> string, s: System, a: Action)
    requires Reachable(show, s) && Enabled(s, a)
    ensures Reachable(show, Next(show, s, a))
  {
    hide Enabled, Next;
    var states: seq<System>, actions: seq<Action> :| Run(show, states, actions) && states[|states| - 1] == s;
    var t := Next(show, s, a);
    var more, acts := states + [t], actions + [a];
    forall k | 0 <= k < |acts|
      ensures Leads(show, more[k], acts[k], more[k + 1])
    {
      if k < |actions| {
        assert Leads(show, states[k], actions[k], states[k + 1]);
      }
    }
    assert Run(show, more, acts) && more[|more| - 1] == t;
  }

  lemma ReachableInv(show: Value -> string, s: System)
    requires Reachable(show, s)
    ensures Inv(s)
  {
    hide Inv;
    var states: seq<System>, actions: seq<Action> :| Run(show, states, actions) && states[|states| - 1] == s;
    RunInv(show, states, actions, |states| - 1);
  }

  /** Reached, with caller 0 free and one run in the whole table. */
  ghost predicate OneRun(show: Value -> string, s: System, row: GeoRun) {
    && Reachable(show, s) && CallerAt(s, 0).Idle?
    && row.sessionId in s.rows && s.rows[row.sessionId] == row
    && forall w | w in s.written :: w.runId == row.runId
  }

  lemma CommitLands(show: Value -> string, s: System, row: GeoRun, call: Call, actor: Actor) returns (t: System)
    requires Inv(s) && row.sessionId in s.rows && s.rows[row.sessionId] == row && Apply(show, row, call).Ok?
    requires CallerAt(s, 0) == Holding(row, call, actor)
    ensures Enabled(s, Commit(0)) && t == Next(show, s, Commit(0))
    ensures var next := Apply(show, row, call).value;
      && next.sessionId == row.sessionId && next.runId == row.runId
      && t.rows == s.rows[row.sessionId := next] && t.written == s.written + {next}
      && t.callers == s.callers[0 := Idle]
  {
    hide Inv, Apply, RowOk, Overwritten;
    assert Wins(show, s, 0);
    WinnerHoldsCurrent(show, s, 0);
    ApplyKeeps(show, row, call);
    SucceedsInPlace(row, Apply(show, row, call).value);
    t := Next(show, s, Commit(0));
  }

  /** Caller 0 reads and writes, alone. */
  lemma Lands(show: Value -> string, s: System, row: GeoRun, read: Action, call: Call, actor: Actor) returns (t: System)
    requires OneRun(show, s, row) && Apply(show, row, call).Ok? && Enabled(s, read)
    requires Next(show, s, read) == Set(s, 0, Holding(row, call, actor))
    ensures OneRun(show, t, Apply(show, row, call).value) && CallerAt(t, 1) == CallerAt(s, 1)
  {
    hide Reachable, Apply, Inv, Enabled, Next;
    ReachNext(show, s, read);
    var s1 := Next(show, s, read);
    ReachableInv(show, s1);
    t := CommitLands(show, s1, row, call, actor);
    ReachNext(show, s1, Commit(0));
  }

  lemma ToolLands(show: Value -> string, s: System, row: GeoRun, call: Call) returns (t: System)
    requires OneRun(show, s, row) && Apply(show, row, call).Ok? && ToolMay(call)
    ensures OneRun(show, t, Apply(show, row, call).value) && CallerAt(t, 1) == CallerAt(s, 1)
  {
    hide Reachable, Apply, ToolMay;
    t := Lands(show, s, row, Read(0, row.sessionId, call), call, Tool);
  }

  // ---- The calls -----------------------------------------------------------------------------------

  /** A text short and clean enough for every field. */
  predicate Acceptable(word: string) { GoodText(word, SETTING_LIMIT) && Stripped(word) }

  function Item(stage: Stage, phase: Phase, word: string): Evidence {
    Evidence(stage, phase, NotMeasured, None, None, word, [])
  }

  lemma ItemStored(show: Value -> string, stage: Stage, phase: Phase, word: string)
    requires phase != Complete && Acceptable(word)
    ensures var e := Item(stage, phase, word);
      FromDict(show, ToDict(e)) == Ok(e)
  {
    EvidenceRoundTrip(show, Item(stage, phase, word));
    hide FromDict, ToDict;
  }

  lemma PhaseAlready(e: Evidence)
    ensures ToDict(e).Dict?
    ensures Dict(ToDict(e).entries["phase" := Text(PhaseText(e.phase))]) == ToDict(e)
  {
    StoredFields(e);
    hide ToDict, PhaseText;
    var entries := ToDict(e).entries;
    assert "phase" in EVIDENCE_KEYS;
    hide EVIDENCE_KEYS;
    assert entries["phase" := entries["phase"]] == entries;
  }

  lemma ParsedIsRecorded(show: Value -> string, row: GeoRun, raw: Value, e: Evidence)
    requires row.phase != Complete && raw.Dict? && (row.phase == Preflight ==> e.stage == Fetch)
    requires FromDict(show, Dict(raw.entries["phase" := Text(PhaseText(row.phase))])) == Ok(e)
    ensures RecordRow(show, row, raw) ==
      Ok(row.(measurements := row.measurements[e.stage := e], revision := row.revision + 1))
  {
    hide FromDict, PhaseText;
    assert e.stage in row.measurements[e.stage := e];
  }

  lemma RecordsItem(show: Value -> string, row: GeoRun, stage: Stage, word: string)
    requires row.phase != Complete && (row.phase == Preflight ==> stage == Fetch) && Acceptable(word)
    ensures var call := Record(ToDict(Item(stage, row.phase, word)));
      && ToolMay(call)
      && Apply(show, row, call) ==
        Ok(row.(measurements := row.measurements[stage := Item(stage, row.phase, word)], revision := row.revision + 1))
  {
    hide FromDict, ToDict, PhaseText, Acceptable, RecordRow, ConfigureRow, AdvanceRow, FinishRow, APPROVAL, PREREGISTRATION;
    var e := Item(stage, row.phase, word);
    ItemStored(show, stage, row.phase, word);
    PhaseAlready(e);
    ParsedIsRecorded(show, row, ToDict(e), e);
  }

  lemma ApprovalStored(show: Value -> string, row: GeoRun, word: string)
    requires row.phase == Preflight && GoodText(Strip(word), SETTING_LIMIT)
    ensures Apply(show, row, Receipt(APPROVAL, word)) ==
      Ok(row.(config := row.config[APPROVAL := Word(Strip(word))], revision := row.revision + 1))
  {
    hide Strip, GoodText, FROZEN;
    ApprovalIsText();
    KeysDiffer();
    var entries := map[APPROVAL := Text(word)];
    assert entries.Keys == {APPROVAL};
    hide APPROVAL, REPETITIONS, ALLOWED, PREREGISTRATION;
    assert CleanSetting(show, APPROVAL, entries[APPROVAL]) == Ok(Word(Strip(word)));
    hide CleanSetting;
    assert SettingsClean(show, entries);
    assert row.config + Settings(show, entries) == row.config[APPROVAL := Word(Strip(word))];
  }

  lemma AcceptableIsClean(word: string)
    requires Acceptable(word)
    ensures Strip(word) == word && GoodText(word, SETTING_LIMIT) && GoodText(word, SUBJECT_LIMIT)
  {
  }

  lemma ApprovalIsText()
    ensures APPROVAL != REPETITIONS && APPROVAL in ALLOWED
  {
  }

  /** Every frozen setting but the approval. */
  function Setup(word: string): map<string, Value> {
    map key | key in FROZEN && key != APPROVAL :: if key == REPETITIONS then Int(3) else Text(word)
  }

  lemma SetupClean(show: Value -> string, word: string)
    requires Acceptable(word)
    ensures Setup(word).Keys == FROZEN - {APPROVAL}
    ensures SettingsClean(show, Setup(word))
  {
    assert Strip(word) == word;
    hide Strip, FROZEN, APPROVAL, REPETITIONS, GoodText;
  }

  lemma SetupAllowed(word: string)
    ensures Setup(word) != map[] && Setup(word).Keys <= ALLOWED
    ensures PREREGISTRATION !in Setup(word) && APPROVAL !in Setup(word)
  {
    KeysDiffer();
    assert REPETITIONS in Setup(word);
    hide PREREGISTRATION, APPROVAL, REPETITIONS, FROZEN;
  }

  lemma SettingsStored(show: Value -> string, row: GeoRun, entries: map<string, Value>)
    requires row.phase == Preflight && SettingsClean(show, entries)
    requires entries != map[] && entries.Keys <= ALLOWED
    ensures Settings(show, entries).Keys == entries.Keys
    ensures Apply(show, row, Configure(Dict(entries))) ==
      Ok(row.(config := row.config + Settings(show, entries), revision := row.revision + 1))
  {
    hide ALLOWED, FROZEN, APPROVAL, PREREGISTRATION, REPETITIONS, COMPLETION_KIND, SettingsClean, CleanSetting;
  }

  lemma SetupByTool(word: string)
    ensures ToolMay(Configure(Dict(Setup(word))))
  {
    SetupAllowed(word);
    hide Setup, ALLOWED, FROZEN, APPROVAL, PREREGISTRATION;
  }

  lemma SetupStored(show: Value -> string, row: GeoRun, word: string)
    requires row.phase == Preflight && APPROVAL in row.config && Acceptable(word)
    ensures var call := Configure(Dict(Setup(word)));
      && ToolMay(call) && Apply(show, row, call).Ok?
      && var next := Apply(show, row, call).value;
      && next.phase == Preflight && next.measurements == row.measurements && FROZEN <= next.config.Keys
      && next.sessionId == row.sessionId && next.runId == row.runId
  {
    hide *;
    SetupClean(show, word);
    SetupAllowed(word);
    SetupByTool(word);
    SettingsStored(show, row, Setup(word));
    assert (row.config + Settings(show, Setup(word))).Keys == row.config.Keys + Setup(word).Keys;
  }

  lemma Advances(show: Value -> string, row: GeoRun)
    requires row.phase == Preflight && Fetch in row.measurements && FROZEN <= row.config.Keys
    ensures Apply(show, row, Advance("live_observe")) == Ok(row.(phase := LiveObserve, revision := row.revision + 1))
  {
    hide FROZEN;
  }

  lemma Finishes(show: Value -> string, row: GeoRun)
    requires row.phase == LiveObserve && STAGES <= row.measurements.Keys && HasEvidenceOf(row.measurements, LiveObserve)
    ensures Apply(show, row, Finish("diagnostic")).Ok?
    ensures var next := Apply(show, row, Finish("diagnostic")).value;
      next.phase == Complete && next.sessionId == row.sessionId && next.runId == row.runId
  {
    hide HasEvidenceOf, STAGES;
  }

  // ---- The run -------------------------------------------------------------------------------------

  lemma Started(show: Value -> string, id: string, runId: string, word: string) returns (s: System, row: GeoRun)
    requires id != "" && Acceptable(word)
    ensures OneRun(show, s, row) && row == FreshRun(id, runId, word) && CallerAt(s, 1).Idle?
  {
    assert Run(show, [INITIAL], []) && [INITIAL][|[INITIAL]| - 1] == INITIAL;
    assert Strip(word) == word;
    hide Reachable, Strip;
    row := FreshRun(id, runId, word);
    ReachNext(show, INITIAL, Start(id, word, runId));
    s := Next(show, INITIAL, Start(id, word, runId));
  }

  /** Approved and set up, in PREFLIGHT. */
  lemma ReachSetup(show: Value -> string, id: string, runId: string, word: string) returns (s: System, row: GeoRun)
    requires id != "" && Acceptable(word)
    ensures OneRun(show, s, row) && row.sessionId == id && row.runId == runId
    ensures row.phase == Preflight && FROZEN <= row.config.Keys && CallerAt(s, 1).Idle?
  {
    s, row := Started(show, id, runId, word);
    AcceptableIsClean(word);
    hide Receipt, Apply, Reachable, FROZEN, ToDict, Strip, GoodText, Acceptable, APPROVAL, Setup;
    ApprovalStored(show, row, word);
    AuthorizeReads(show, s, row, word);
    s := Lands(show, s, row, Authorize(0, id, word), Receipt(APPROVAL, word), Operator);
    row := Apply(show, row, Receipt(APPROVAL, word)).value;
    SetupStored(show, row, word);
    s := ToolLands(show, s, row, Configure(Dict(Setup(word))));
    row := Apply(show, row, Configure(Dict(Setup(word)))).value;
  }

  /** The run reaches LIVE_OBSERVE with a measurement and every frozen setting. */
  lemma ReachLive(show: Value -> string, id: string, runId: string, word: string) returns (s: System, row: GeoRun)
    requires id != "" && Acceptable(word)
    ensures OneRun(show, s, row) && row.sessionId == id && row.runId == runId
    ensures row.phase == LiveObserve && Fetch in row.measurements && CallerAt(s, 1).Idle?
  {
    s, row := ReachSetup(show, id, runId, word);
    hide Apply, Reachable, FROZEN, ToDict, ToolMay;
    RecordsItem(show, row, Fetch, word);
    s := ToolLands(show, s, row, Record(ToDict(Item(Fetch, row.phase, word))));
    row := Apply(show, row, Record(ToDict(Item(Fetch, row.phase, word)))).value;
    Advances(show, row);
    assert ToolMay(Advance("live_observe")) by { AdvanceAllowed(); }
    s := ToolLands(show, s, row, Advance("live_observe"));
    row := Apply(show, row, Advance("live_observe")).value;
  }

  lemma AdvanceAllowed()
    ensures ToolMay(Advance("live_observe"))
  {
  }

  lemma AuthorizeReads(show: Value -> string, s: System, row: GeoRun, word: string)
    requires OneRun(show, s, row)
    ensures Enabled(s, Authorize(0, row.sessionId, word))
    ensures Next(show, s, Authorize(0, row.sessionId, word)) == Set(s, 0, Holding(row, Receipt(APPROVAL, word), Operator))
  {
    hide Reachable, Receipt;
  }

  /** A tool call records one stage in LIVE_OBSERVE. */
  lemma RecordsOne(show: Value -> string, s: System, row: GeoRun, stage: Stage, word: string)
    returns (t: System, next: GeoRun)
    requires OneRun(show, s, row) && row.phase == LiveObserve && Acceptable(word)
    ensures OneRun(show, t, next) && CallerAt(t, 1) == CallerAt(s, 1)
    ensures next ==
      row.(measurements := row.measurements[stage := Item(stage, row.phase, word)], revision := row.revision + 1)
  {
    hide OneRun, Apply, ToDict, ToolMay, Acceptable, CallerAt, Item;
    RecordsItem(show, row, stage, word);
    var call := Record(ToDict(Item(stage, row.phase, word)));
    t := ToolLands(show, s, row, call);
    next := Apply(show, row, call).value;
  }

  lemma {:induction false} RecordsAll(show: Value -> string, s: System, row: GeoRun, stages: seq<Stage>, word: string)
    returns (t: System, last: GeoRun)
    requires OneRun(show, s, row) && row.phase == LiveObserve && Acceptable(word)
    ensures OneRun(show, t, last) && CallerAt(t, 1) == CallerAt(s, 1)
    ensures last.phase == LiveObserve && last.sessionId == row.sessionId && last.runId == row.runId
    ensures last.measurements.Keys == row.measurements.Keys + set g | g in stages
    ensures stages != [] ==> HasEvidenceOf(last.measurements, LiveObserve)
    decreases |stages|
  {
    hide OneRun, Acceptable, CallerAt;
    if stages == [] {
      return s, row;
    }
    var n := |stages| - 1;
    var middle, before := RecordsAll(show, s, row, stages[..n], word);
    t, last := RecordsOne(show, middle, before, stages[n], word);
    assert stages == stages[..n] + [stages[n]];
    assert last.measurements[stages[n]].phase == LiveObserve;
  }

  /** From the empty store, for any session, any two run ids and any acceptable text: a caller checks
      LIVE_OBSERVE, the run is completed and another one started, and the receipt is then
      written into the PREFLIGHT row of the new run. */
  lemma PreregistrationReachesPreflight(show: Value -> string, id: string, first: string, second: string, word: string) returns (s: System)
    requires id != "" && first != second && Acceptable(word)
    ensures Reachable(show, s)
    ensures id in s.rows && s.rows[id].phase == Preflight && s.rows[id].runId == second
    ensures PREREGISTRATION in s.rows[id].config
  {
    var row: GeoRun;
    s, row := ReachLive(show, id, first, word);
    s := Checks(show, s, row, word);
    hide Reachable, STAGES;
    var stages := [Retrieval, Citation, Placement, Absorption, Quality, Outcome];
    s, row := RecordsAll(show, s, row, stages, word);
    AllStages(row.measurements.Keys, stages);
    Finishes(show, row);
    s := ToolLands(show, s, row, Finish("diagnostic"));
    row := Apply(show, row, Finish("diagnostic")).value;
    hide Apply;
    s := Misses(show, s, row, second, word);
  }

  lemma AllStages(keys: set<Stage>, stages: seq<Stage>)
    requires stages == [Retrieval, Citation, Placement, Absorption, Quality, Outcome]
    requires Fetch in keys && (set g | g in stages) <= keys
    ensures STAGES <= keys
  {
    assert forall i | 0 <= i < |stages| :: stages[i] in set g | g in stages;
    assert stages[0] == Retrieval && stages[1] == Citation && stages[2] == Placement;
    assert stages[3] == Absorption && stages[4] == Quality && stages[5] == Outcome;
  }

  lemma Checks(show: Value -> string, s: System, row: GeoRun, word: string) returns (t: System)
    requires OneRun(show, s, row) && row.phase == LiveObserve && CallerAt(s, 1).Idle?
    ensures OneRun(show, t, row) && CallerAt(t, 1) == Checked(row, word)
  {
    hide Reachable;
    ReachNext(show, s, Check(1, row.sessionId, word));
    t := Next(show, s, Check(1, row.sessionId, word));
  }

  lemma Misses(show: Value -> string, s: System, row: GeoRun, second: string, word: string) returns (t: System)
    requires OneRun(show, s, row) && row.phase == Complete && row.sessionId != "" && row.runId != second && Acceptable(word)
    requires CallerAt(s, 1).Checked? && CallerAt(s, 1).seen.sessionId == row.sessionId && CallerAt(s, 1).reference == word
    ensures Reachable(show, t) && row.sessionId in t.rows
    ensures t.rows[row.sessionId].phase == Preflight && t.rows[row.sessionId].runId == second
    ensures PREREGISTRATION in t.rows[row.sessionId].config
  {
    assert Strip(word) == word && GoodText(word, SUBJECT_LIMIT);
    ReachableInv(show, s);
    assert !UsedRunId(s, second);
    hide Reachable, Inv, Strip, Apply, Receipt, StartRow, GoodText, Overwritten, UsedRunId;
    var id := row.sessionId;
    PreregistrationMisses(show, s, 1, word, second);
    ReachNext(show, s, Start(id, word, second));
    var s1 := Next(show, s, Start(id, word, second));
    ReachNext(show, s1, ReadChecked(1));
    var s2 := Next(show, s1, ReadChecked(1));
    hide Next, Enabled;
    ReachNext(show, s2, Commit(1));
    t := Next(show, s2, Commit(1));
  }
}
