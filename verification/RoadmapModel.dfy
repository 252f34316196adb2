/** The architecture roadmap ledger as parsed values, and the constants of its
    state machine. Every judgement the checker makes on the text of one cell is
    a function in `TextRules`, so each result holds for all such judgements. */
module RoadmapModel {
  import opened Prelude

  type Id = string
  type Cell = string

  datatype Status =
    | Open | Ready | InProgress | InDevelop | Blocked | Done | Rejected | Superseded
    | Unlisted(text: string)

  datatype Gap = Gap(
    id: Id, audit: string, baselineEvidence: Cell, exitCondition: Cell,
    package: Id, dependencies: seq<Id>, status: Status)

  datatype Package = Package(id: Id, gaps: seq<Id>)

  datatype Claim = Claim(
    package: Id, gaps: seq<Id>, owner: Cell, branch: Cell, evidence: Cell, claimedAt: Cell)

  /** One row of each evidence table: its raw cells, left to right. */
  datatype DevelopRow = DevelopRow(
    package: Cell, gaps: Cell, feature: Cell, commit: Cell, verification: Cell)

  datatype MainRow = MainRow(
    gap: Cell, feature: Cell, release: Cell, verification: Cell, migration: Cell, documentation: Cell)

  datatype DecisionRow = DecisionRow(
    gap: Cell, decision: Cell, reference: Cell, rationale: Cell, evidence: Cell, reaudit: Cell)

  datatype BlockerRow = BlockerRow(
    package: Cell, gaps: Cell, transition: Cell, reason: Cell, reference: Cell, reaudit: Cell)

  datatype Roadmap = Roadmap(
    gaps: seq<Gap>,
    packages: seq<Package>,
    packageHeadings: seq<Id>,
    claims: seq<Claim>,
    developEvidence: seq<DevelopRow>,
    mainEvidence: seq<MainRow>,
    decisionEvidence: seq<DecisionRow>,
    blockerEvidence: seq<BlockerRow>)

  /** The text predicates: regular expressions and Markdown clean-up. `gapList`
      is None where the checker raises a parse error. */
  datatype TextRules = TextRules(
    clean: Cell -> string,
    empty: Cell -> bool,
    meaningful: Cell -> bool,
    prLink: Cell -> bool,
    sha: Cell -> bool,
    releaseVersion: Cell -> bool,
    durableReference: Cell -> bool,
    verified: Cell -> bool,
    structuredPass: Cell -> bool,
    utcTimestamp: Cell -> bool,
    ownerFormat: Cell -> bool,
    branchFormat: Cell -> bool,
    packageFormat: Id -> bool,
    gapList: Cell -> Option<seq<Id>>,
    mentionsGap: Cell -> bool,
    matchTransition: Cell -> Option<(Status, Status)>)

  const AUDIT_CLASSES: set<string> := {"EXISTS", "PARTIAL", "ABSENT", "MISFIT"}
  const DECISION_STATUSES: set<Status> := {Rejected, Superseded}
  const DELIVERED: set<Status> := {InDevelop, Done}
  const DEPENDENCY_ENFORCED: set<Status> := {Ready, InProgress, InDevelop, Done}

  const DEPENDENCY_REMOVED := "DEPENDENCY_REMOVED"
  const DEPENDENCY_ADDED := "DEPENDENCY_ADDED"
  const DEPENDENCY_DECISIONS: set<string> := {DEPENDENCY_REMOVED, DEPENDENCY_ADDED}
  const DECISION_KINDS: set<string> := {"REJECTED", "SUPERSEDED"} + DEPENDENCY_DECISIONS
  const RATIONALE_MINIMUM := 12

  function StatusText(s: Status): string {
    match s
    case Open => "OPEN"
    case Ready => "READY"
    case InProgress => "IN_PROGRESS"
    case InDevelop => "IN_DEVELOP"
    case Blocked => "BLOCKED"
    case Done => "DONE"
    case Rejected => "REJECTED"
    case Superseded => "SUPERSEDED"
    case Unlisted(text) => text
  }

  /** The transition table. */
  function AllowedTargets(s: Status): set<Status> {
    match s
    case Open => {Ready, Blocked, Rejected, Superseded}
    case Ready => {Open, InProgress, Blocked, Rejected, Superseded}
    case InProgress => {Open, Ready, InDevelop, Blocked, Rejected, Superseded}
    case InDevelop => {Done, Blocked, Rejected, Superseded}
    case Blocked => {Open, Ready, Rejected, Superseded}
    case _ => {}
  }

  // ---- Keys and parsed columns of evidence rows -------------------------------

  function DevelopKey(t: TextRules, row: DevelopRow): Id { (t.clean)(row.package) }
  function MainKey(t: TextRules, row: MainRow): Id { (t.clean)(row.gap) }
  function DecisionKey(t: TextRules, row: DecisionRow): Id { (t.clean)(row.gap) }
  function DecisionKind(t: TextRules, row: DecisionRow): string { (t.clean)(row.decision) }
  function BlockerKey(t: TextRules, row: BlockerRow): Id { (t.clean)(row.package) }

  function ListedGaps(t: TextRules, cell: Cell): seq<Id> {
    match (t.gapList)(cell)
    case Some(ids) => ids
    case None => []
  }

  /** A transition cell never names DONE: the checker's pattern has no such word. */
  function Transition(t: TextRules, cell: Cell): Option<(Status, Status)> {
    match (t.matchTransition)(cell)
    case Some((source, target)) =>
      if source == Done || target == Done || source.Unlisted? || target.Unlisted? then None
      else Some((source, target))
    case None => None
  }

  /** The GAP ids a decision row refers to; None where the checker raises. */
  function DecisionReferences(t: TextRules, row: DecisionRow): Option<seq<Id>> {
    if DecisionKind(t, row) in {"SUPERSEDED"} + DEPENDENCY_DECISIONS then (t.gapList)(row.reference)
    else if (t.mentionsGap)(row.reference) then (t.gapList)(row.reference)
    else Some([])
  }

  // ---- Dictionaries the checker builds ----------------------------------------

  function GapIds(gaps: seq<Gap>): (ids: seq<Id>)
    ensures |ids| == |gaps|
    ensures forall i | 0 <= i < |gaps| :: ids[i] == gaps[i].id
  {
    seq(|gaps|, i requires 0 <= i < |gaps| => gaps[i].id)
  }

  /** `{gap.id: gap for gap in gaps}`: a later row replaces an earlier one. */
  function IndexGaps(gaps: seq<Gap>): map<Id, Gap> {
    if gaps == [] then map[] else IndexGaps(gaps[..|gaps| - 1])[gaps[|gaps| - 1].id := gaps[|gaps| - 1]]
  }

  lemma {:induction false} IndexHolds(gaps: seq<Gap>)
    ensures forall g | g in gaps :: g.id in IndexGaps(gaps)
    ensures forall id | id in IndexGaps(gaps) :: IndexGaps(gaps)[id] in gaps && IndexGaps(gaps)[id].id == id
    decreases |gaps|
  {
    if gaps != [] {
      var init, last := gaps[..|gaps| - 1], gaps[|gaps| - 1];
      IndexHolds(init);
      assert gaps == init + [last];
    }
  }

  lemma IndexFindsRow(gaps: seq<Gap>, g: Gap)
    requires NoDuplicates(GapIds(gaps)) && g in gaps
    ensures g.id in IndexGaps(gaps) && IndexGaps(gaps)[g.id] == g
  {
    IndexHolds(gaps);
    var h := IndexGaps(gaps)[g.id];
    var i :| 0 <= i < |gaps| && gaps[i] == g;
    var j :| 0 <= j < |gaps| && gaps[j] == h;
    assert GapIds(gaps)[i] == g.id && GapIds(gaps)[j] == g.id;
  }

  /** The rows of one closure package, in ledger order. */
  function Members(gaps: seq<Gap>, package: Id): (members: seq<Gap>)
    ensures forall g :: g in members <==> g in gaps && g.package == package
  {
    if gaps == [] then []
    else
      var init, last := gaps[..|gaps| - 1], gaps[|gaps| - 1];
      assert gaps == init + [last];
      if last.package == package then Members(init, package) + [last] else Members(init, package)
  }

  function Statuses(gaps: seq<Gap>, package: Id): set<Status> {
    set g | g in gaps && g.package == package :: g.status
  }

  /** The work packages that select a GAP, once per occurrence. */
  function SelectedBy(packages: seq<Package>, id: Id): seq<Id> {
    if packages == [] then []
    else
      var last := packages[|packages| - 1];
      SelectedBy(packages[..|packages| - 1], id) + Occurrences(last.gaps, id, last.id)
  }

  function Occurrences(ids: seq<Id>, id: Id, package: Id): seq<Id> {
    if ids == [] then []
    else
      var rest := Occurrences(ids[..|ids| - 1], id, package);
      if ids[|ids| - 1] == id then rest + [package] else rest
  }

  /** The parsed transitions of one package's blocker rows, in order. */
  function PackageTransitions(t: TextRules, rows: seq<BlockerRow>, package: Id): seq<(Status, Status)> {
    if rows == [] then []
    else
      var rest := PackageTransitions(t, rows[..|rows| - 1], package);
      var last := rows[|rows| - 1];
      if BlockerKey(t, last) != package then rest
      else match Transition(t, last.transition)
           case Some(p) => rest + [p]
           case None => rest
  }

  /** What parsing alone guarantees: package selectors sit under package headings and
      every GAP list in an evidence row is readable. */
  predicate Parsed(t: TextRules, r: Roadmap) {
    && (forall p | p in r.packages :: p.id in r.packageHeadings)
    && (forall row | row in r.developEvidence :: (t.gapList)(row.gaps).Some?)
    && (forall row | row in r.blockerEvidence :: (t.gapList)(row.gaps).Some?)
  }
}
