/** The GEO store: one row per session, read, validated and then written by a
    compare-and-swap on session, run and revision. */
module GeoStores {
  import opened Prelude
  import opened PythonText
  import opened GeoEvidence
  import opened GeoRuns

  /** The row the UPDATE statement leaves: phase, measurements and config as wanted,
      everything else from the row that is stored. */
  function Overwritten(stored: GeoRun, wanted: GeoRun): GeoRun {
    stored.(phase := wanted.phase, measurements := wanted.measurements, config := wanted.config,
            revision := stored.revision + 1)
  }

  predicate SameVersion(stored: GeoRun, held: GeoRun) {
    stored.runId == held.runId && stored.revision == held.revision
  }

  predicate KeysAllowed(raw: Value) {
    raw.Dict? && raw.entries != map[] && raw.entries.Keys <= ALLOWED
  }

  /** What one uninterrupted operation answers; a malformed configuration is refused
      before the session is looked up. */
  function Answer(show: Value -> string, rows: map<string, GeoRun>, sessionId: string, call: Call): Result<GeoRun, Refusal> {
    if call.Configure? && !KeysAllowed(call.raw) then Err(BadConfig)
    else if sessionId !in rows then Err(NoRun)
    else Apply(show, rows[sessionId], call)
  }

  function Stored(rows: map<string, GeoRun>, sessionId: string, answer: Result<GeoRun, Refusal>): map<string, GeoRun> {
    if answer.Ok? then rows[sessionId := answer.value] else rows
  }

  function Receipt(key: string, reference: string): Call {
    Configure(Dict(map[key := Text(reference)]))
  }

  function PreregisterAnswer(show: Value -> string, rows: map<string, GeoRun>, sessionId: string, reference: string): Result<GeoRun, Refusal> {
    if sessionId !in rows then Err(NoRun)
    else if rows[sessionId].phase != LiveObserve then Err(WrongPhase)
    else Answer(show, rows, sessionId, Receipt(PREREGISTRATION, reference))
  }

  lemma CleanSettingRefuses(show: Value -> string, key: string, value: Value)
    ensures CleanSetting(show, key, value).Err? ==> CleanSetting(show, key, value) == Err(BadSetting)
  {
  }

  predicate RowsOk(rows: map<string, GeoRun>) {
    forall s | s in rows :: rows[s].sessionId == s && RowOk(rows[s])
  }

  predicate RunIdTaken(rows: map<string, GeoRun>, sessionId: string, runId: string) {
    exists s :: s in rows && s != sessionId && rows[s].runId == runId
  }

  datatype ToolRequest = ToolRequest(action: string, config: Value, evidence: Value, phase: string, kind: string)

  /** The store call an `update_geo` request makes, or why it makes none. */
  function ToolCall(request: ToolRequest): (r: Result<Call, Refusal>)
    ensures r.Ok? ==> ToolMay(r.value)
  {
    if request.action == "configure" then
      if request.config.Dict? && (APPROVAL in request.config.entries || PREREGISTRATION in request.config.entries)
      then Err(OperatorOnly) else Ok(Configure(request.config))
    else if request.action == "record" then Ok(Record(request.evidence))
    else if request.action == "advance" then Ok(Advance(request.phase))
    else if request.action == "complete" then
      if request.kind == "" then Err(BadKind) else Ok(Finish(request.kind))
    else Err(UnknownAction)
  }

  function ToolAnswer(show: Value -> string, rows: map<string, GeoRun>, sessionId: string, request: ToolRequest): Result<GeoRun, Refusal> {
    match ToolCall(request)
    case Ok(call) => Answer(show, rows, sessionId, call)
    case Err(e) => Err(e)
  }

  class GeoStore {
    var rows: map<string, GeoRun>
    const show: Value -> string

    ghost predicate Valid()
      reads this
    {
      RowsOk(rows)
    }

    constructor (show: Value -> string)
      ensures Valid() && rows == map[] && this.show == show
    {
      this.show := show;
      rows := map[];
    }

    /** `_require`. */
    method Require(sessionId: string) returns (r: Result<GeoRun, Refusal>)
      ensures r == if sessionId in rows then Ok(rows[sessionId]) else Err(NoRun)
    {
      if sessionId in rows {
        r := Ok(rows[sessionId]);
      } else {
        r := Err(NoRun);
      }
    }

    /** `_update`: writes only over the version that was read. */
    method Update(
      held: GeoRun, phase: Option<Phase>, measurements: Option<map<Stage, Evidence>>,
      config: Option<map<string, Setting>>) returns (r: Result<GeoRun, Refusal>)
      modifies this
      ensures var s := held.sessionId;
        if s in old(rows) && SameVersion(old(rows)[s], held)
        then var row := Overwritten(old(rows)[s], Revised(held, phase, measurements, config));
             r == Ok(row) && rows == old(rows)[s := row]
        else r == Err(StaleUpdate) && rows == old(rows)
    {
      var s := held.sessionId;
      if s in rows && SameVersion(rows[s], held) {
        rows := rows[s := Overwritten(rows[s], Revised(held, phase, measurements, config))];
        r := Require(s);
      } else {
        r := Err(StaleUpdate);
      }
    }

    method Start(sessionId: string, subject: string, runId: string) returns (r: Result<GeoRun, Refusal>)
      requires Valid()
      modifies this
      ensures Valid()
      ensures var current := if sessionId in old(rows) then Some(old(rows)[sessionId]) else None;
        var wanted := StartRow(current, sessionId, subject, runId);
        if wanted.Ok? && Some(wanted.value) != current && RunIdTaken(old(rows), sessionId, runId)
        then r == Err(RepeatedRunId) && rows == old(rows)
        else r == wanted && rows == Stored(old(rows), sessionId, wanted)
      ensures sessionId in old(rows) && old(rows)[sessionId].phase != Phase.Complete ==>
        && rows == old(rows)
        && (sessionId != "" && 1 <= |Strip(subject)| <= 4000 ==>
              r == if old(rows)[sessionId].subject == Strip(subject) then Ok(old(rows)[sessionId]) else Err(ActiveRun))
      ensures sessionId !in old(rows) || old(rows)[sessionId].phase == Phase.Complete ==>
        (r.Ok? <==> sessionId != "" && 1 <= |Strip(subject)| <= 4000 && !RunIdTaken(old(rows), sessionId, runId))
        && (r.Ok? ==>
              && r.value == GeoRun(sessionId, runId, Strip(subject), Preflight, map[], map[], 0)
              && rows == old(rows)[sessionId := r.value])
        && (r.Err? ==> rows == old(rows))
    {
      hide RowOk, Strip;
      var title := Strip(subject);
      if sessionId == "" || title == "" || |title| > SUBJECT_LIMIT {
        return Err(BadSubject);
      }
      if sessionId in rows && rows[sessionId].phase != Phase.Complete {
        if rows[sessionId].subject != title {
          return Err(ActiveRun);
        }
        assert rows[sessionId := rows[sessionId]] == rows;
        return Ok(rows[sessionId]);
      }
      FreshRunOk(sessionId, runId, title);
      if exists s :: s in rows && s != sessionId && rows[s].runId == runId {
        return Err(RepeatedRunId);
      }
      rows := rows[sessionId := FreshRun(sessionId, runId, title)];
      r := Require(sessionId);
    }

    method Configure(sessionId: string, raw: Value) returns (r: Result<GeoRun, Refusal>)
      requires Valid()
      modifies this
      ensures Valid()
      ensures r == Answer(show, old(rows), sessionId, Call.Configure(raw))
      ensures rows == Stored(old(rows), sessionId, r)
    {
      hide RowOk, CleanSetting, Succeeds, FROZEN, ALLOWED;
      if !raw.Dict? || raw.entries == map[] || !(raw.entries.Keys <= ALLOWED) {
        return Err(BadConfig);
      }
      var required := Require(sessionId);
      if required.Err? {
        return required;
      }
      var current := required.value;
      if current.phase == Experiment || current.phase == Phase.Complete {
        return Err(ConfigFrozen);
      }
      if current.phase == LiveObserve && raw.entries.Keys != {PREREGISTRATION} {
        return Err(ConfigFrozen);
      }
      var config := current.config;
      var left := raw.entries.Keys;
      while left != {}
        invariant left <= raw.entries.Keys
        invariant forall key | key in raw.entries && key !in left :: CleanSetting(show, key, raw.entries[key]).Ok?
        invariant config.Keys == current.config.Keys + (raw.entries.Keys - left)
        invariant forall key | key in config ::
          config[key] == if key in raw.entries && key !in left then CleanSetting(show, key, raw.entries[key]).value
                         else current.config[key]
      {
        var key :| key in left;
        var cleaned := CleanSetting(show, key, raw.entries[key]);
        if cleaned.Err? {
          CleanSettingRefuses(show, key, raw.entries[key]);
          return Err(BadSetting);
        }
        config := config[key := cleaned.value];
        left := left - {key};
      }
      assert config == current.config + Settings(show, raw.entries);
      ApplyKeeps(show, current, Call.Configure(raw));
      r := Update(current, None, None, Some(config));
    }

    method AuthorizeLive(sessionId: string, reference: string) returns (r: Result<GeoRun, Refusal>)
      requires Valid()
      modifies this
      ensures Valid()
      ensures r == Answer(show, old(rows), sessionId, Receipt(APPROVAL, reference))
      ensures rows == Stored(old(rows), sessionId, r)
    {
      r := Configure(sessionId, Dict(map[APPROVAL := Text(reference)]));
    }

    method PreregisterExperiment(sessionId: string, reference: string) returns (r: Result<GeoRun, Refusal>)
      requires Valid()
      modifies this
      ensures Valid()
      ensures r == PreregisterAnswer(show, old(rows), sessionId, reference)
      ensures rows == Stored(old(rows), sessionId, r)
    {
      var required := Require(sessionId);
      if required.Err? {
        return required;
      }
      if required.value.phase != LiveObserve {
        return Err(WrongPhase);
      }
      r := Configure(sessionId, Dict(map[PREREGISTRATION := Text(reference)]));
    }

    method Record(sessionId: string, raw: Value) returns (r: Result<GeoRun, Refusal>)
      requires Valid()
      modifies this
      ensures Valid()
      ensures r == Answer(show, old(rows), sessionId, Call.Record(raw))
      ensures rows == Stored(old(rows), sessionId, r)
    {
      hide RowOk, FromDict, WellFormed, PhaseText, Succeeds;
      var required := Require(sessionId);
      if required.Err? {
        return required;
      }
      var current := required.value;
      if current.phase == Phase.Complete {
        return Err(RunCompleted);
      }
      if !raw.Dict? {
        return Err(BadEvidence);
      }
      var parsed := FromDict(show, Dict(raw.entries["phase" := Text(PhaseText(current.phase))]));
      if parsed.Err? {
        return Err(BadEvidence);
      }
      if current.phase == Preflight && parsed.value.stage != Fetch {
        return Err(WrongStage);
      }
      ApplyKeeps(show, current, Call.Record(raw));
      r := Update(current, None, Some(current.measurements[parsed.value.stage := parsed.value]), None);
    }

    method Advance(sessionId: string, target: string) returns (r: Result<GeoRun, Refusal>)
      requires Valid()
      modifies this
      ensures Valid()
      ensures r == Answer(show, old(rows), sessionId, Call.Advance(target))
      ensures rows == Stored(old(rows), sessionId, r)
    {
      hide RowOk;
      var required := Require(sessionId);
      if required.Err? {
        return required;
      }
      var current := required.value;
      var next := ParsePhase(target);
      if next.None? {
        return Err(WrongPhase);
      }
      if current.phase == Experiment || current.phase == Phase.Complete {
        return Err(WrongPhase);
      }
      var expected := if current.phase == Preflight then LiveObserve else Experiment;
      if next.value != expected {
        return Err(WrongPhase);
      }
      if current.phase == Preflight && Fetch !in current.measurements {
        return Err(MissingEvidence);
      }
      if current.phase != Preflight && !HasEvidenceOf(current.measurements, current.phase) {
        return Err(MissingEvidence);
      }
      if next.value == LiveObserve && !(FROZEN <= current.config.Keys) {
        return Err(MissingConfig);
      }
      if next.value == Experiment && PREREGISTRATION !in current.config {
        return Err(MissingConfig);
      }
      ApplyKeeps(show, current, Call.Advance(target));
      r := Update(current, next, None, None);
    }

    method Complete(sessionId: string, kind: string) returns (r: Result<GeoRun, Refusal>)
      requires Valid()
      modifies this
      ensures Valid()
      ensures r == Answer(show, old(rows), sessionId, Finish(kind))
      ensures rows == Stored(old(rows), sessionId, r)
    {
      hide RowOk;
      var required := Require(sessionId);
      if required.Err? {
        return required;
      }
      var current := required.value;
      if current.phase == Phase.Complete {
        return Err(RunCompleted);
      }
      var expected := KindPhase(kind);
      if expected.None? {
        return Err(BadKind);
      }
      if current.phase != expected.value {
        return Err(WrongPhase);
      }
      if !HasEvidenceOf(current.measurements, current.phase) {
        return Err(MissingEvidence);
      }
      if !(STAGES <= current.measurements.Keys) {
        return Err(MissingStages);
      }
      ApplyKeeps(show, current, Finish(kind));
      r := Update(current, Some(Phase.Complete), None, Some(current.config[COMPLETION_KIND := Word(kind)]));
    }

    /** The `update_geo` handler. */
    method UpdateGeo(sessionId: string, request: ToolRequest) returns (r: Result<GeoRun, Refusal>)
      requires Valid()
      modifies this
      ensures Valid()
      ensures r == ToolAnswer(show, old(rows), sessionId, request)
      ensures rows == Stored(old(rows), sessionId, r)
    {
      hide Answer, RowsOk;
      if request.action == "configure" {
        if request.config.Dict? && (APPROVAL in request.config.entries || PREREGISTRATION in request.config.entries) {
          return Err(OperatorOnly);
        }
        r := Configure(sessionId, request.config);
      } else if request.action == "record" {
        r := Record(sessionId, request.evidence);
      } else if request.action == "advance" {
        r := Advance(sessionId, request.phase);
      } else if request.action == "complete" {
        if request.kind == "" {
          return Err(BadKind);
        }
        r := Complete(sessionId, request.kind);
      } else {
        r := Err(UnknownAction);
      }
    }
  }
}
