/** One GEO run as a row, what each operation turns it into, and what every row that
    operations can reach satisfies. */
module GeoRuns {
  import opened Prelude
  import opened PythonText
  import opened GeoEvidence

  datatype Setting = Word(text: string) | Count(number: int)

  datatype GeoRun = GeoRun(
    sessionId: string, runId: string, subject: string, phase: Phase,
    measurements: map<Stage, Evidence>, config: map<string, Setting>, revision: nat)

  datatype Refusal =
    | NoRun | BadSubject | ActiveRun | BadConfig | ConfigFrozen | BadSetting | BadEvidence | RunCompleted
    | WrongStage | WrongPhase | MissingEvidence | MissingConfig | BadKind | MissingStages | StaleUpdate | OperatorOnly
    | UnknownAction | RepeatedRunId

  const APPROVAL := "approval_ref"
  const PREREGISTRATION := "preregistration_ref"
  const REPETITIONS := "repetitions"
  const COMPLETION_KIND := "completion_kind"
  const FROZEN: set<string> := {"workload_digest", "engine", "model", "locale", REPETITIONS, APPROVAL}
  const ALLOWED: set<string> := FROZEN + {PREREGISTRATION}
  const SUBJECT_LIMIT := 4000
  const SETTING_LIMIT := 1000
  const REPETITION_LIMIT := 1000
  const STAGES: set<Stage> := {Fetch, Retrieval, Citation, Placement, Absorption, Quality, Outcome}

  /** The row `_update` writes: given parts replaced, an empty measurement map
      counting as none given, and the revision advanced. */
  function Revised(
    row: GeoRun, phase: Option<Phase>, measurements: Option<map<Stage, Evidence>>,
    config: Option<map<string, Setting>>): GeoRun
  {
    row.(phase := if phase.Some? then phase.value else row.phase,
         measurements := if measurements.Some? && measurements.value != map[] then measurements.value
                         else row.measurements,
         config := if config.Some? then config.value else row.config,
         revision := row.revision + 1)
  }

  // ---- The operations --------------------------------------------------------------------

  datatype Call =
    | Configure(raw: Value)
    | Record(raw: Value)
    | Advance(target: string)
    | Finish(kind: string)

  function CleanSetting(show: Value -> string, key: string, value: Value): Result<Setting, Refusal> {
    if key == REPETITIONS then
      if value.Int? && 1 <= value.number <= REPETITION_LIMIT then Ok(Count(value.number)) else Err(BadSetting)
    else
      var text := Strip(Str(show, value));
      if GoodText(text, SETTING_LIMIT) then Ok(Word(text)) else Err(BadSetting)
  }

  predicate SettingsClean(show: Value -> string, entries: map<string, Value>) {
    forall key | key in entries :: CleanSetting(show, key, entries[key]).Ok?
  }

  function Settings(show: Value -> string, entries: map<string, Value>): map<string, Setting>
    requires SettingsClean(show, entries)
  {
    map key | key in entries :: CleanSetting(show, key, entries[key]).value
  }

  function ConfigureRow(show: Value -> string, row: GeoRun, raw: Value): Result<GeoRun, Refusal> {
    if !raw.Dict? || raw.entries == map[] || !(raw.entries.Keys <= ALLOWED) then Err(BadConfig)
    else if row.phase in {Experiment, Complete} then Err(ConfigFrozen)
    else if row.phase == LiveObserve && raw.entries.Keys != {PREREGISTRATION} then Err(ConfigFrozen)
    else if !SettingsClean(show, raw.entries) then Err(BadSetting)
    else Ok(Revised(row, None, None, Some(row.config + Settings(show, raw.entries))))
  }

  function RecordRow(show: Value -> string, row: GeoRun, raw: Value): Result<GeoRun, Refusal> {
    if row.phase == Complete then Err(RunCompleted)
    else if !raw.Dict? then Err(BadEvidence)
    else
      match FromDict(show, Dict(raw.entries["phase" := Text(PhaseText(row.phase))]))
      case Err(_) => Err(BadEvidence)
      case Ok(e) =>
        if row.phase == Preflight && e.stage != Fetch then Err(WrongStage)
        else Ok(Revised(row, None, Some(row.measurements[e.stage := e]), None))
  }

  predicate HasEvidenceOf(measurements: map<Stage, Evidence>, phase: Phase) {
    exists stage :: stage in measurements && measurements[stage].phase == phase
  }

  function AdvanceRow(row: GeoRun, target: string): Result<GeoRun, Refusal> {
    var next := ParsePhase(target);
    if next.None? || row.phase in {Experiment, Complete} then Err(WrongPhase)
    else if next.value != (if row.phase == Preflight then LiveObserve else Experiment) then Err(WrongPhase)
    else if row.phase == Preflight && Fetch !in row.measurements then Err(MissingEvidence)
    else if row.phase != Preflight && !HasEvidenceOf(row.measurements, row.phase) then Err(MissingEvidence)
    else if next.value == LiveObserve && !(FROZEN <= row.config.Keys) then Err(MissingConfig)
    else if next.value == Experiment && PREREGISTRATION !in row.config then Err(MissingConfig)
    else Ok(Revised(row, next, None, None))
  }

  function KindPhase(kind: string): Option<Phase> {
    if kind == "diagnostic" then Some(LiveObserve)
    else if kind == "experiment" then Some(Experiment)
    else None
  }

  function FinishRow(row: GeoRun, kind: string): Result<GeoRun, Refusal> {
    if row.phase == Complete then Err(RunCompleted)
    else if KindPhase(kind).None? then Err(BadKind)
    else if row.phase != KindPhase(kind).value then Err(WrongPhase)
    else if !HasEvidenceOf(row.measurements, row.phase) then Err(MissingEvidence)
    else if !(STAGES <= row.measurements.Keys) then Err(MissingStages)
    else Ok(Revised(row, Some(Complete), None, Some(row.config[COMPLETION_KIND := Word(kind)])))
  }

  /** The row an operation computes from the row it has read. */
  function Apply(show: Value -> string, row: GeoRun, call: Call): Result<GeoRun, Refusal> {
    match call
    case Configure(raw) => ConfigureRow(show, row, raw)
    case Record(raw) => RecordRow(show, row, raw)
    case Advance(target) => AdvanceRow(row, target)
    case Finish(kind) => FinishRow(row, kind)
  }

  function FreshRun(sessionId: string, runId: string, subject: string): GeoRun {
    GeoRun(sessionId, runId, subject, Preflight, map[], map[], 0)
  }

  /** What `start` does to a session's row: a new run, the run already active on the
      same subject, or a refusal. */
  function StartRow(current: Option<GeoRun>, sessionId: string, subject: string, runId: string): Result<GeoRun, Refusal> {
    var title := Strip(subject);
    if sessionId == "" || !GoodText(title, SUBJECT_LIMIT) then Err(BadSubject)
    else if current.Some? && current.value.phase != Complete then
      if current.value.subject != title then Err(ActiveRun) else Ok(current.value)
    else Ok(FreshRun(sessionId, runId, title))
  }

  // ---- What a caller may ask -----------------------------------------------------------------

  /** The `update_geo` tool refuses the two operator-owned receipts. */
  predicate ToolMay(call: Call) {
    match call
    case Configure(raw) => raw.Dict? ==> APPROVAL !in raw.entries && PREREGISTRATION !in raw.entries
    case Finish(kind) => kind != ""
    case _ => true
  }

  predicate ApprovesLive(call: Call) {
    call.Configure? && call.raw.Dict? && APPROVAL in call.raw.entries
  }

  // ---- What reachable rows satisfy -------------------------------------------------------------

  predicate MeasurementsOk(row: GeoRun) {
    forall stage | stage in row.measurements ::
      && row.measurements[stage].stage == stage
      && WellFormed(row.measurements[stage])
      && (row.phase == Preflight ==> stage == Fetch)
  }

  predicate Completed(row: GeoRun) {
    && row.measurements.Keys == STAGES
    && COMPLETION_KIND in row.config
    && row.config[COMPLETION_KIND].Word?
    && KindPhase(row.config[COMPLETION_KIND].text).Some?
    && HasEvidenceOf(row.measurements, KindPhase(row.config[COMPLETION_KIND].text).value)
    && (row.config[COMPLETION_KIND].text == "experiment" ==> PREREGISTRATION in row.config)
  }

  /** PREFLIGHT holds at most F; every later phase holds F and the frozen settings;
      EXPERIMENT is preregistered; COMPLETE has every stage and evidence of its kind. */
  predicate RowOk(row: GeoRun) {
    && MeasurementsOk(row)
    && (row.phase != Preflight ==> Fetch in row.measurements && FROZEN <= row.config.Keys)
    && (row.phase == Experiment ==> PREREGISTRATION in row.config)
    && (row.phase == Complete ==> Completed(row))
  }

  function FrozenPart(row: GeoRun): map<string, Setting> {
    map key | key in row.config && key in FROZEN :: row.config[key]
  }

  function PhaseRank(p: Phase): nat {
    match p case Preflight => 0 case LiveObserve => 1 case Experiment => 2 case Complete => 3
  }

  lemma KeysDiffer()
    ensures PREREGISTRATION !in FROZEN && COMPLETION_KIND !in ALLOWED && COMPLETION_KIND !in FROZEN && APPROVAL in FROZEN
    ensures PREREGISTRATION != COMPLETION_KIND && APPROVAL != PREREGISTRATION
  {
  }

  lemma FreshRunOk(sessionId: string, runId: string, subject: string)
    ensures var row := FreshRun(sessionId, runId, subject);
      RowOk(row) && row.sessionId == sessionId && row.runId == runId && row.phase == Preflight && row.revision == 0
  {
  }

  /** A later state of the same run: identity kept, one revision on, phases in order, and
      no frozen setting touched once PREFLIGHT is left. */
  predicate Succeeds(row: GeoRun, next: GeoRun) {
    && next.sessionId == row.sessionId && next.runId == row.runId && next.subject == row.subject
    && next.revision == row.revision + 1
    && PhaseRank(row.phase) <= PhaseRank(next.phase)
    && row.phase != Complete
    && (row.phase != Preflight ==> FrozenPart(next) == FrozenPart(row))
  }

  /** Every operation keeps the row invariant and produces a successor of the row it read. */
  lemma ApplyKeeps(show: Value -> string, row: GeoRun, call: Call)
    requires RowOk(row) && Apply(show, row, call).Ok?
    ensures var next := Apply(show, row, call).value;
      RowOk(next) && Succeeds(row, next)
  {
    hide ConfigureRow, RecordRow, AdvanceRow, FinishRow, RowOk, Succeeds;
    match call {
      case Configure(raw) => ConfigureKeeps(show, row, raw);
      case Record(raw) => RecordKeeps(show, row, raw);
      case Advance(target) => AdvanceKeeps(row, target);
      case Finish(kind) => FinishKeeps(row, kind);
    }
  }

  lemma ConfigureKeeps(show: Value -> string, row: GeoRun, raw: Value)
    requires RowOk(row) && ConfigureRow(show, row, raw).Ok?
    ensures var next := ConfigureRow(show, row, raw).value;
      RowOk(next) && Succeeds(row, next) && next.phase == row.phase
  {
    KeysDiffer();
    hide CleanSetting, WellFormed, FROZEN, ALLOWED, Completed, PREREGISTRATION, COMPLETION_KIND, APPROVAL;
    var next := ConfigureRow(show, row, raw).value;
    if row.phase != Preflight {
      assert Settings(show, raw.entries).Keys == {PREREGISTRATION};
      assert forall key | key in FROZEN && key in row.config :: next.config[key] == row.config[key];
    }
  }

  lemma RecordKeeps(show: Value -> string, row: GeoRun, raw: Value)
    requires RowOk(row) && RecordRow(show, row, raw).Ok?
    ensures var next := RecordRow(show, row, raw).value;
      RowOk(next) && Succeeds(row, next) && next.phase == row.phase
  {
    hide FromDict, WellFormed, FROZEN, PhaseText, Completed, PREREGISTRATION, COMPLETION_KIND, APPROVAL;
    var next := RecordRow(show, row, raw).value;
    assert next.config == row.config;
  }

  lemma AdvanceKeeps(row: GeoRun, target: string)
    requires RowOk(row) && AdvanceRow(row, target).Ok?
    ensures var next := AdvanceRow(row, target).value;
      RowOk(next) && Succeeds(row, next) && PhaseRank(row.phase) < PhaseRank(next.phase)
  {
    hide ParsePhase, WellFormed, FROZEN, Completed, PREREGISTRATION, COMPLETION_KIND, APPROVAL;
    assert AdvanceRow(row, target).value.config == row.config;
  }

  lemma FinishKeeps(row: GeoRun, kind: string)
    requires RowOk(row) && FinishRow(row, kind).Ok?
    ensures var next := FinishRow(row, kind).value;
      RowOk(next) && Succeeds(row, next) && next.phase == Complete
  {
    KeysDiffer();
    hide WellFormed, FROZEN, ALLOWED, COMPLETION_KIND, PREREGISTRATION, APPROVAL;
    var next := FinishRow(row, kind).value;
    assert next.measurements.Keys == STAGES by {
      forall stage | stage in next.measurements
        ensures stage in STAGES
      {
      }
    }
  }

  /** The approval receipt enters a row only through a call that carries one. */
  lemma ApprovalEnters(show: Value -> string, row: GeoRun, call: Call)
    requires Apply(show, row, call).Ok? && APPROVAL !in row.config && !ApprovesLive(call)
    ensures APPROVAL !in Apply(show, row, call).value.config
  {
    hide FROZEN, ALLOWED, CleanSetting, FromDict;
    assert APPROVAL != COMPLETION_KIND;
  }

  // ---- When an operation succeeds, and what it does then ----------------------------------

  predicate RecordedIn(row: GeoRun, phase: Phase) {
    exists stage: Stage :: stage in row.measurements && row.measurements[stage].phase == phase
  }

  /** PREFLIGHT is left with F and every frozen setting, LIVE_OBSERVE with evidence recorded in
      it and the preregistration; nothing else advances. */
  lemma AdvanceExactly(row: GeoRun, target: string)
    ensures target == "live_observe" ==>
      (AdvanceRow(row, target).Ok? <==>
         && row.phase == Preflight && Fetch in row.measurements
         && "workload_digest" in row.config && "engine" in row.config && "model" in row.config
         && "locale" in row.config && "repetitions" in row.config && "approval_ref" in row.config)
    ensures target == "experiment" ==>
      (AdvanceRow(row, target).Ok? <==>
         row.phase == LiveObserve && RecordedIn(row, LiveObserve) && "preregistration_ref" in row.config)
    ensures target !in ["live_observe", "experiment"] ==> AdvanceRow(row, target).Err?
    ensures AdvanceRow(row, target).Ok? ==>
      AdvanceRow(row, target).value ==
        row.(phase := if target == "live_observe" then LiveObserve else Experiment, revision := row.revision + 1)
  {
    ParsedPhase(target, LiveObserve);
    ParsedPhase(target, Experiment);
    FrozenKeys(row.config);
    hide ParsePhase, FROZEN;
  }

  lemma FrozenKeys(config: map<string, Setting>)
    ensures FROZEN <= config.Keys <==>
      && "workload_digest" in config && "engine" in config && "model" in config
      && "locale" in config && "repetitions" in config && "approval_ref" in config
  {
  }

  /** A run is completed as diagnostic from LIVE_OBSERVE or as experiment from EXPERIMENT, with
      every stage recorded and at least one of them in that phase. */
  lemma FinishExactly(row: GeoRun, kind: string)
    ensures FinishRow(row, kind).Ok? <==>
      && ((kind == "diagnostic" && row.phase == LiveObserve) || (kind == "experiment" && row.phase == Experiment))
      && RecordedIn(row, row.phase)
      && (forall stage: Stage :: stage in row.measurements)
    ensures FinishRow(row, kind).Ok? ==>
      FinishRow(row, kind).value ==
        row.(phase := Complete, config := row.config[COMPLETION_KIND := Word(kind)], revision := row.revision + 1)
  {
    hide COMPLETION_KIND;
    EveryStage();
    hide STAGES;
  }

  lemma EveryStage()
    ensures forall stage: Stage :: stage in STAGES
  {
    forall stage: Stage
      ensures stage in STAGES
    {
      match stage {
        case Fetch => case Retrieval => case Citation => case Placement => case Absorption => case Quality => case Outcome =>
      }
    }
  }

  /** Recording any well-formed measurement: refused once the run is complete and, in PREFLIGHT,
      for any stage but F; otherwise it replaces that stage, under the phase the run is in. */
  lemma RecordExactly(show: Value -> string, row: GeoRun, e: Evidence)
    requires WellFormed(e)
    ensures RecordRow(show, row, ToDict(e)) ==
      if row.phase == Complete then Err(RunCompleted)
      else if row.phase == Preflight && e.stage != Fetch then Err(WrongStage)
      else Ok(row.(measurements := row.measurements[e.stage := e.(phase := row.phase)], revision := row.revision + 1))
  {
    hide *;
    DictIsDict(e);
    if row.phase != Complete {
      Relabelled(show, e, row.phase);
    }
    RecordParsed(show, row, ToDict(e), e.(phase := row.phase));
  }

  lemma RecordParsed(show: Value -> string, row: GeoRun, raw: Value, e: Evidence)
    requires raw.Dict?
    requires row.phase == Complete || FromDict(show, Dict(raw.entries["phase" := Text(PhaseText(row.phase))])) == Ok(e)
    ensures RecordRow(show, row, raw) ==
      if row.phase == Complete then Err(RunCompleted)
      else if row.phase == Preflight && e.stage != Fetch then Err(WrongStage)
      else Ok(row.(measurements := row.measurements[e.stage := e], revision := row.revision + 1))
  {
    hide FromDict, PhaseText;
    assert e.stage in row.measurements[e.stage := e];
  }

  lemma DictIsDict(e: Evidence)
    ensures ToDict(e).Dict?
  {
  }

  lemma OtherKeys(entries: map<string, Value>, v: Value)
    requires entries.Keys == EVIDENCE_KEYS
    ensures entries["phase" := v].Keys == EVIDENCE_KEYS
    ensures forall key | key in EVIDENCE_KEYS && key != "phase" :: entries["phase" := v][key] == entries[key]
    ensures "stage" in EVIDENCE_KEYS - {"phase"} && "status" in EVIDENCE_KEYS - {"phase"}
    ensures "finding" in EVIDENCE_KEYS - {"phase"} && "evidence" in EVIDENCE_KEYS - {"phase"}
    ensures "numerator" in EVIDENCE_KEYS - {"phase"} && "denominator" in EVIDENCE_KEYS - {"phase"}
  {
    assert "phase" in EVIDENCE_KEYS;
    assert entries["phase" := v].Keys == entries.Keys + {"phase"};
  }

  lemma Relabelled(show: Value -> string, e: Evidence, phase: Phase)
    requires WellFormed(e) && phase != Complete
    ensures ToDict(e).Dict?
    ensures FromDict(show, Dict(ToDict(e).entries["phase" := Text(PhaseText(phase))])) == Ok(e.(phase := phase))
  {
    DictIsDict(e);
    StillWellFormed(e, phase);
    RelabelledDict(e, phase);
    EvidenceRoundTrip(show, e.(phase := phase));
    hide *;
  }

  lemma SameFields(a: map<string, Value>, b: map<string, Value>)
    requires a.Keys == EVIDENCE_KEYS && b.Keys == EVIDENCE_KEYS
    requires "stage" in a && "phase" in a && "status" in a && "finding" in a
    requires "numerator" in a && "denominator" in a && "evidence" in a
    requires a["stage"] == b["stage"] && a["phase"] == b["phase"] && a["status"] == b["status"]
    requires a["finding"] == b["finding"] && a["evidence"] == b["evidence"]
    requires a["numerator"] == b["numerator"] && a["denominator"] == b["denominator"]
    ensures a == b
  {
    forall key | key in EVIDENCE_KEYS
      ensures a[key] == b[key]
    {
    }
    hide EVIDENCE_KEYS;
  }

  lemma RelabelledDict(e: Evidence, phase: Phase)
    ensures ToDict(e).Dict?
    ensures Dict(ToDict(e).entries["phase" := Text(PhaseText(phase))]) == ToDict(e.(phase := phase))
  {
    var now := e.(phase := phase);
    StoredFields(e);
    StoredFields(now);
    hide ToDict, PhaseText, StageText, StatusText, Texts, NumberOrNull, EVIDENCE_KEYS;
    OtherKeys(ToDict(e).entries, Text(PhaseText(phase)));
    SameFields(ToDict(e).entries["phase" := Text(PhaseText(phase))], ToDict(now).entries);
  }

  lemma StillWellFormed(e: Evidence, phase: Phase)
    requires WellFormed(e) && phase != Complete
    ensures WellFormed(e.(phase := phase))
  {
    hide Stripped;
  }

  predicate AcceptableSetting(show: Value -> string, key: string, value: Value) {
    if key == REPETITIONS then value.Int? && 1 <= value.number <= 1000
    else 1 <= |Strip(Str(show, value))| <= 1000
  }

  /** A configuration of known keys: accepted in PREFLIGHT, or as the preregistration alone in
      LIVE_OBSERVE, if every value is acceptable; it then sets exactly those keys. */
  lemma ConfigureExactly(show: Value -> string, row: GeoRun, entries: map<string, Value>)
    requires entries != map[] && entries.Keys <= ALLOWED
    ensures ConfigureRow(show, row, Dict(entries)).Ok? <==>
      && (row.phase == Preflight || (row.phase == LiveObserve && entries.Keys == {PREREGISTRATION}))
      && (forall key | key in entries :: AcceptableSetting(show, key, entries[key]))
    ensures ConfigureRow(show, row, Dict(entries)).Ok? ==>
      var next := ConfigureRow(show, row, Dict(entries)).value;
      && next == row.(config := next.config, revision := row.revision + 1)
      && next.config.Keys == row.config.Keys + entries.Keys
      && (forall key | key in next.config ::
            next.config[key] ==
              if key !in entries then row.config[key]
              else if key == REPETITIONS && entries[key].Int? then Count(entries[key].number)
              else Word(Strip(Str(show, entries[key]))))
  {
    hide ALLOWED, FROZEN, PREREGISTRATION, REPETITIONS, Strip, Str;
    forall key | key in entries
      ensures CleanSetting(show, key, entries[key]).Ok? <==> AcceptableSetting(show, key, entries[key])
    {
    }
  }
}
