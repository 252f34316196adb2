/** One stage measurement of a GEO run: the validation a raw object must pass, and
    the object it is stored as. */
module GeoEvidence {
  import opened Prelude
  import opened PythonText

  datatype Phase = Preflight | LiveObserve | Experiment | Complete
  datatype Stage = Fetch | Retrieval | Citation | Placement | Absorption | Quality | Outcome
  datatype Measurement = NotMeasured | Partial | Measured

  /** A decoded JSON-like value; `Other` stands for anything else a caller may pass. */
  datatype Value =
    | Null | Bool(flag: bool) | Int(number: int) | Text(text: string)
    | List(items: seq<Value>) | Dict(entries: map<string, Value>) | Other(repr: string)

  datatype Evidence = Evidence(
    stage: Stage, phase: Phase, status: Measurement,
    numerator: Option<int>, denominator: Option<int>, finding: string, locators: seq<string>)

  datatype Flaw =
    | WrongKeys | UnknownStage | UnknownPhase | UnknownStatus | CompletePhase | BadFinding
    | BadLocatorList | BadLocator | RepeatedLocator | MeasuredNothing | NotIntegers | BadRatio

  const FINDING_LIMIT := 2000
  const LOCATOR_LIMIT := 1000
  const LOCATOR_COUNT := 24
  const EVIDENCE_KEYS: set<string> :=
    {"stage", "phase", "status", "numerator", "denominator", "finding", "evidence"}

  function PhaseText(p: Phase): string {
    match p
    case Preflight => "preflight"
    case LiveObserve => "live_observe"
    case Experiment => "experiment"
    case Complete => "complete"
  }

  function StageText(s: Stage): string {
    match s
    case Fetch => "F" case Retrieval => "R" case Citation => "C" case Placement => "P"
    case Absorption => "A" case Quality => "Q" case Outcome => "O"
  }

  function StatusText(m: Measurement): string {
    match m
    case NotMeasured => "not_measured" case Partial => "partial" case Measured => "measured"
  }

  function ParsePhase(text: string): Option<Phase> {
    if text == "preflight" then Some(Preflight)
    else if text == "live_observe" then Some(LiveObserve)
    else if text == "experiment" then Some(Experiment)
    else if text == "complete" then Some(Complete)
    else None
  }

  function ParseStage(text: string): Option<Stage> {
    if text == "F" then Some(Fetch) else if text == "R" then Some(Retrieval)
    else if text == "C" then Some(Citation) else if text == "P" then Some(Placement)
    else if text == "A" then Some(Absorption) else if text == "Q" then Some(Quality)
    else if text == "O" then Some(Outcome) else None
  }

  function ParseStatus(text: string): Option<Measurement> {
    if text == "not_measured" then Some(NotMeasured)
    else if text == "partial" then Some(Partial)
    else if text == "measured" then Some(Measured)
    else None
  }

  /** `str(value)`, given how values other than text are shown. */
  function Str(show: Value -> string, v: Value): string {
    if v.Text? then v.text else show(v)
  }

  function Locators(show: Value -> string, items: seq<Value>): (r: seq<string>)
    ensures |r| == |items| && forall i | 0 <= i < |items| :: r[i] == Strip(Str(show, items[i]))
  {
    seq(|items|, i requires 0 <= i < |items| => Strip(Str(show, items[i])))
  }

  predicate GoodText(s: string, limit: nat) { s != [] && |s| <= limit }

  function IntOf(v: Value): Option<int> {
    if v.Int? then Some(v.number) else None
  }

  /** `GeoEvidence.from_dict`. */
  function FromDict(show: Value -> string, raw: Value): (r: Result<Evidence, Flaw>)
    ensures r.Ok? ==> WellFormed(r.value)
  {
    if !raw.Dict? || raw.entries.Keys != EVIDENCE_KEYS then Err(WrongKeys)
    else
      var stage := ParseStage(Str(show, raw.entries["stage"]));
      var phase := ParsePhase(Str(show, raw.entries["phase"]));
      var status := ParseStatus(Str(show, raw.entries["status"]));
      if stage.None? then Err(UnknownStage)
      else if phase.None? then Err(UnknownPhase)
      else if status.None? then Err(UnknownStatus)
      else
        Validated(show, stage.value, phase.value, status.value, raw.entries["numerator"], raw.entries["denominator"],
                  Strip(Str(show, raw.entries["finding"])), raw.entries["evidence"])
  }

  /** The checks once the three names are read. */
  function Validated(
    show: Value -> string, stage: Stage, phase: Phase, status: Measurement, numerator: Value, denominator: Value,
    finding: string, listed: Value): (r: Result<Evidence, Flaw>)
    ensures r.Ok? && Stripped(finding) ==> WellFormed(r.value)
  {
    if phase == Complete then Err(CompletePhase)
    else if !GoodText(finding, FINDING_LIMIT) then Err(BadFinding)
    else if !listed.List? || |listed.items| > LOCATOR_COUNT then Err(BadLocatorList)
    else
      var locators := Locators(show, listed.items);
      if exists l | l in locators :: !GoodText(l, LOCATOR_LIMIT) then Err(BadLocator)
      else if !NoDuplicates(locators) then Err(RepeatedLocator)
      else if status == NotMeasured then
        if numerator != Null || denominator != Null then Err(MeasuredNothing)
        else Ok(Evidence(stage, phase, status, None, None, finding, locators))
      else if !numerator.Int? || !denominator.Int? then Err(NotIntegers)
      else if denominator.number <= 0 || !(0 <= numerator.number <= denominator.number) || locators == [] then
        Err(BadRatio)
      else
        Ok(Evidence(stage, phase, status, IntOf(numerator), IntOf(denominator), finding, locators))
  }

  /** What validation establishes of a measurement. */
  predicate WellFormed(e: Evidence) {
    && e.phase != Complete
    && Stripped(e.finding) && 1 <= |e.finding| <= 2000
    && |e.locators| <= 24
    && NoDuplicates(e.locators)
    && (forall l | l in e.locators :: Stripped(l) && 1 <= |l| <= 1000)
    && (if e.status == NotMeasured then e.numerator.None? && e.denominator.None?
        else
          && e.numerator.Some? && e.denominator.Some?
          && 0 <= e.numerator.value <= e.denominator.value && 0 < e.denominator.value
          && e.locators != [])
  }

  function Texts(items: seq<string>): (r: seq<Value>)
    ensures |r| == |items| && forall i | 0 <= i < |items| :: r[i] == Text(items[i])
  {
    seq(|items|, i requires 0 <= i < |items| => Text(items[i]))
  }

  function NumberOrNull(n: Option<int>): Value {
    if n.Some? then Int(n.value) else Null
  }

  /** `GeoEvidence.to_dict`, as it is stored. */
  function ToDict(e: Evidence): Value {
    Dict(map[
      "stage" := Text(StageText(e.stage)),
      "phase" := Text(PhaseText(e.phase)),
      "status" := Text(StatusText(e.status)),
      "numerator" := NumberOrNull(e.numerator),
      "denominator" := NumberOrNull(e.denominator),
      "finding" := Text(e.finding),
      "evidence" := List(Texts(e.locators))])
  }

  lemma TextsRoundTrip(show: Value -> string, items: seq<string>)
    requires forall l | l in items :: Stripped(l)
    ensures Locators(show, Texts(items)) == items
  {
  }

  lemma NamesRoundTrip(e: Evidence)
    ensures ParseStage(StageText(e.stage)) == Some(e.stage)
    ensures ParsePhase(PhaseText(e.phase)) == Some(e.phase)
    ensures ParseStatus(StatusText(e.status)) == Some(e.status)
  {
  }

  lemma StoredFields(e: Evidence)
    ensures ToDict(e).Dict?
    ensures var entries := ToDict(e).entries;
      && entries.Keys == EVIDENCE_KEYS
      && entries["stage"] == Text(StageText(e.stage)) && entries["phase"] == Text(PhaseText(e.phase))
      && entries["status"] == Text(StatusText(e.status)) && entries["finding"] == Text(e.finding)
      && entries["numerator"] == NumberOrNull(e.numerator) && entries["denominator"] == NumberOrNull(e.denominator)
      && entries["evidence"] == List(Texts(e.locators))
  {
  }

  lemma TextsRoundTripIf(show: Value -> string, e: Evidence)
    ensures WellFormed(e) ==> Locators(show, Texts(e.locators)) == e.locators && Strip(e.finding) == e.finding
  {
    if WellFormed(e) {
      TextsRoundTrip(show, e.locators);
    }
  }

  /** A measurement that passed validation once is stored and read back unchanged,
      however values are shown. */
  lemma EvidenceRoundTrip(show: Value -> string, e: Evidence)
    ensures WellFormed(e) <==> FromDict(show, ToDict(e)) == Ok(e)
  {
    TextsRoundTripIf(show, e);
    NamesRoundTrip(e);
    StoredFields(e);
    hide ToDict, ParseStage, ParsePhase, ParseStatus, StageText, PhaseText, StatusText, Strip, Locators, Texts;
  }

  predicate Number(raw: Value, n: Option<int>) {
    match n case None => raw == Null case Some(i) => raw == Int(i)
  }

  /** The raw object says what the measurement says, text stripped. */
  predicate Describes(show: Value -> string, raw: Value, e: Evidence) {
    && raw.Dict? && raw.entries.Keys == EVIDENCE_KEYS
    && Str(show, raw.entries["stage"]) == StageText(e.stage)
    && Str(show, raw.entries["phase"]) == PhaseText(e.phase)
    && Str(show, raw.entries["status"]) == StatusText(e.status)
    && Strip(Str(show, raw.entries["finding"])) == e.finding
    && Number(raw.entries["numerator"], e.numerator) && Number(raw.entries["denominator"], e.denominator)
    && var listed := raw.entries["evidence"];
       listed.List? && |listed.items| == |e.locators|
       && forall i | 0 <= i < |e.locators| :: Strip(Str(show, listed.items[i])) == e.locators[i]
  }

  lemma ParsedStage(text: string, s: Stage)
    ensures ParseStage(text) == Some(s) <==> text == StageText(s)
  {
  }

  lemma ParsedPhase(text: string, p: Phase)
    ensures ParsePhase(text) == Some(p) <==> text == PhaseText(p)
  {
  }

  lemma ParsedStatus(text: string, m: Measurement)
    ensures ParseStatus(text) == Some(m) <==> text == StatusText(m)
  {
  }

  /** What the checks after the names accept. */
  lemma ValidatedIs(
    show: Value -> string, numerator: Value, denominator: Value, finding: string, listed: Value, e: Evidence)
    requires Stripped(finding)
    ensures Validated(show, e.stage, e.phase, e.status, numerator, denominator, finding, listed) == Ok(e) <==>
      && finding == e.finding
      && Number(numerator, e.numerator) && Number(denominator, e.denominator)
      && listed.List? && Locators(show, listed.items) == e.locators
      && WellFormed(e)
  {
    hide Stripped, Locators, Strip;
    var r := Validated(show, e.stage, e.phase, e.status, numerator, denominator, finding, listed);
    if listed.List? {
      LocatorsStripped(show, listed.items);
    }
  }

  lemma LocatorsStripped(show: Value -> string, items: seq<Value>)
    ensures forall l | l in Locators(show, items) :: Stripped(l)
  {
    hide Stripped, Strip;
  }

  lemma ValidatedNames(
    show: Value -> string, stage: Stage, phase: Phase, status: Measurement, numerator: Value, denominator: Value,
    finding: string, listed: Value)
    ensures var r := Validated(show, stage, phase, status, numerator, denominator, finding, listed);
      r.Ok? ==> r.value.stage == stage && r.value.phase == phase && r.value.status == status
  {
    hide Locators, NoDuplicates;
  }

  lemma FromDictNames(show: Value -> string, raw: Value)
    requires FromDict(show, raw).Ok?
    ensures raw.Dict? && raw.entries.Keys == EVIDENCE_KEYS
    ensures "stage" in raw.entries && "phase" in raw.entries && "status" in raw.entries
    ensures var e := FromDict(show, raw).value;
      && ParseStage(Str(show, raw.entries["stage"])) == Some(e.stage)
      && ParsePhase(Str(show, raw.entries["phase"])) == Some(e.phase)
      && ParseStatus(Str(show, raw.entries["status"])) == Some(e.status)
  {
    KeysThere(raw.entries);
    hide ParseStage, ParsePhase, ParseStatus, Validated, Strip, EVIDENCE_KEYS;
    var entries := raw.entries;
    ValidatedNames(show, ParseStage(Str(show, entries["stage"])).value, ParsePhase(Str(show, entries["phase"])).value,
      ParseStatus(Str(show, entries["status"])).value, entries["numerator"], entries["denominator"],
      Strip(Str(show, entries["finding"])), entries["evidence"]);
  }

  /** Validation accepts exactly the objects that describe a well-formed measurement, and
      returns the one they describe. */
  lemma AcceptedIffDescribed(show: Value -> string, raw: Value, e: Evidence)
    ensures FromDict(show, raw) == Ok(e) <==> Describes(show, raw, e) && WellFormed(e)
  {
    if FromDict(show, raw) == Ok(e) {
      FromDictNames(show, raw);
    }
    if raw.Dict? && raw.entries.Keys == EVIDENCE_KEYS {
      KeysThere(raw.entries);
      hide EVIDENCE_KEYS, ParseStage, ParsePhase, ParseStatus, StageText, PhaseText, StatusText, Strip, Stripped;
      hide Validated, WellFormed, Locators;
      ParsedStage(Str(show, raw.entries["stage"]), e.stage);
      ParsedPhase(Str(show, raw.entries["phase"]), e.phase);
      ParsedStatus(Str(show, raw.entries["status"]), e.status);
      var finding := Strip(Str(show, raw.entries["finding"]));
      ValidatedIs(show, raw.entries["numerator"], raw.entries["denominator"], finding, raw.entries["evidence"], e);
      if raw.entries["evidence"].List? {
        LocatorsAre(show, raw.entries["evidence"].items, e.locators);
      }
    }
    hide *;
  }

  lemma KeysThere(entries: map<string, Value>)
    requires entries.Keys == EVIDENCE_KEYS
    ensures {"stage", "phase", "status", "numerator", "denominator", "finding", "evidence"} <= entries.Keys
  {
  }

  lemma LocatorsAre(show: Value -> string, items: seq<Value>, locators: seq<string>)
    ensures Locators(show, items) == locators <==>
      |items| == |locators| && forall i | 0 <= i < |locators| :: Strip(Str(show, items[i])) == locators[i]
  {
    hide Strip;
  }
}
