/** What each validator of the ledger checker accepts: one predicate per group
    of checks, true exactly where the checker reports no finding. */
module RoadmapRules {
  import opened Prelude
  import opened RoadmapModel

  // ---- Structure of one document ----------------------------------------------

  predicate ReadinessOk(index: map<Id, Gap>, g: Gap) {
    forall d | d in g.dependencies && d in index && index[d].package != g.package ::
      index[d].status in DELIVERED
  }

  predicate GapRowOk(t: TextRules, index: map<Id, Gap>, g: Gap) {
    && g.audit in AUDIT_CLASSES
    && (t.meaningful)(g.baselineEvidence)
    && (t.meaningful)(g.exitCondition)
    && !g.status.Unlisted?
    && (t.packageFormat)(g.package)
    && (forall d | d in g.dependencies :: d in index)
    && ((exists d | d in g.dependencies :: d in index && index[d].status in DECISION_STATUSES)
        ==> g.status in {Blocked} + DECISION_STATUSES)
    && (g.status in DEPENDENCY_ENFORCED ==> ReadinessOk(index, g))
  }

  /** A walk along dependency edges between known GAPs. */
  predicate IsPath(index: map<Id, Gap>, path: seq<Id>) {
    && (forall i | 0 <= i < |path| :: path[i] in index)
    && (forall i | 0 < i < |path| :: path[i] in index[path[i - 1]].dependencies)
  }

  predicate IsCycle(index: map<Id, Gap>, path: seq<Id>) {
    && |path| >= 2
    && path[0] == path[|path| - 1]
    && IsPath(index, path)
  }

  ghost predicate Acyclic(index: map<Id, Gap>) {
    forall path :: !IsCycle(index, path)
  }

  predicate SelectorOk(index: map<Id, Gap>, p: Package) {
    && p.gaps != []
    && (forall id | id in p.gaps :: id in index && index[id].package == p.id)
  }

  predicate SelectionOk(packages: seq<Package>, g: Gap) {
    && |SelectedBy(packages, g.id)| == 1
    && (exists p | p in packages :: p.id == g.package)
  }

  predicate Atomic(gaps: seq<Gap>) {
    forall g, h | g in gaps && h in gaps && g.package == h.package :: g.status == h.status
  }

  predicate ClaimOk(t: TextRules, gaps: seq<Gap>, c: Claim) {
    && Members(gaps, c.package) != []
    && multiset(c.gaps) == multiset(GapIds(Members(gaps, c.package)))
    && Statuses(gaps, c.package) == {InProgress}
    && !(t.empty)(c.owner) && !(t.empty)(c.branch) && !(t.empty)(c.evidence) && !(t.empty)(c.claimedAt)
    && (t.ownerFormat)(c.owner)
    && (t.branchFormat)(c.branch)
    && (t.prLink)(c.evidence)
    && (t.utcTimestamp)(c.claimedAt)
  }

  predicate ClaimedWhenInProgress(r: Roadmap) {
    forall g | g in r.gaps && Statuses(r.gaps, g.package) == {InProgress} ::
      exists c :: c in r.claims && c.package == g.package
  }

  function ClaimPackages(claims: seq<Claim>): (ids: seq<Id>)
    ensures |ids| == |claims| && forall i | 0 <= i < |claims| :: ids[i] == claims[i].package
  {
    seq(|claims|, i requires 0 <= i < |claims| => claims[i].package)
  }

  function PackageIds(packages: seq<Package>): (ids: seq<Id>)
    ensures |ids| == |packages| && forall i | 0 <= i < |packages| :: ids[i] == packages[i].id
  {
    seq(|packages|, i requires 0 <= i < |packages| => packages[i].id)
  }

  function DevelopKeys(t: TextRules, rows: seq<DevelopRow>): (keys: seq<Id>)
    ensures |keys| == |rows| && forall i | 0 <= i < |rows| :: keys[i] == DevelopKey(t, rows[i])
  {
    seq(|rows|, i requires 0 <= i < |rows| => DevelopKey(t, rows[i]))
  }

  function MainKeys(t: TextRules, rows: seq<MainRow>): (keys: seq<Id>)
    ensures |keys| == |rows| && forall i | 0 <= i < |rows| :: keys[i] == MainKey(t, rows[i])
  {
    seq(|rows|, i requires 0 <= i < |rows| => MainKey(t, rows[i]))
  }

  predicate DevelopRowOk(t: TextRules, gaps: seq<Gap>, row: DevelopRow) {
    var key := DevelopKey(t, row);
    && !(t.empty)(row.package) && !(t.empty)(row.gaps) && !(t.empty)(row.feature)
    && !(t.empty)(row.commit) && !(t.empty)(row.verification)
    && Members(gaps, key) != []
    && multiset(ListedGaps(t, row.gaps)) == multiset(GapIds(Members(gaps, key)))
    && Statuses(gaps, key) <= DELIVERED
    && (t.prLink)(row.feature)
    && (t.sha)(row.commit)
    && (t.verified)(row.verification)
  }

  predicate HasDevelopRow(t: TextRules, rows: seq<DevelopRow>, package: Id) {
    exists row :: row in rows && DevelopKey(t, row) == package
  }

  predicate DevelopEvidenceOk(t: TextRules, r: Roadmap) {
    && NoDuplicates(DevelopKeys(t, r.developEvidence))
    && (forall row | row in r.developEvidence :: DevelopRowOk(t, r.gaps, row))
    && (forall g | g in r.gaps && Statuses(r.gaps, g.package) <= DELIVERED ::
          HasDevelopRow(t, r.developEvidence, g.package))
  }

  predicate MainRowOk(t: TextRules, index: map<Id, Gap>, row: MainRow) {
    && !(t.empty)(row.gap) && !(t.empty)(row.feature) && !(t.empty)(row.release)
    && !(t.empty)(row.verification) && !(t.empty)(row.migration) && !(t.empty)(row.documentation)
    && MainKey(t, row) in index
    && index[MainKey(t, row)].status == Done
    && ((t.prLink)(row.feature) || (t.sha)(row.feature))
    && ((t.sha)(row.release) || (t.releaseVersion)(row.release))
    && (t.verified)(row.verification)
    && (t.meaningful)(row.migration)
    && (t.meaningful)(row.documentation)
  }

  predicate HasMainRow(t: TextRules, rows: seq<MainRow>, id: Id) {
    exists row :: row in rows && MainKey(t, row) == id
  }

  predicate MainEvidenceOk(t: TextRules, r: Roadmap) {
    && NoDuplicates(MainKeys(t, r.mainEvidence))
    && (forall row | row in r.mainEvidence :: MainRowOk(t, IndexGaps(r.gaps), row))
    && (forall g | g in r.gaps && g.status == Done :: HasMainRow(t, r.mainEvidence, g.id))
  }

  predicate DecisionRowOk(t: TextRules, index: map<Id, Gap>, row: DecisionRow) {
    var key, kind, references := DecisionKey(t, row), DecisionKind(t, row), DecisionReferences(t, row);
    && !(t.empty)(row.gap) && !(t.empty)(row.decision) && !(t.empty)(row.reference)
    && !(t.empty)(row.rationale) && !(t.empty)(row.evidence) && !(t.empty)(row.reaudit)
    && key in index
    && kind in DECISION_KINDS
    && (kind in {"REJECTED", "SUPERSEDED"} ==> StatusText(index[key].status) == kind)
    && references.Some?
    && (kind in {"SUPERSEDED"} + DEPENDENCY_DECISIONS ==> references.value != [])
    && (forall id | id in references.value :: id in index)
    && key !in references.value
    && |(t.clean)(row.rationale)| >= RATIONALE_MINIMUM
    && ((t.prLink)(row.evidence) || (t.sha)(row.evidence))
    && (t.verified)(row.reaudit)
  }

  predicate HasDecisionRow(t: TextRules, rows: seq<DecisionRow>, g: Gap) {
    exists row :: row in rows && DecisionKey(t, row) == g.id && DecisionKind(t, row) == StatusText(g.status)
  }

  predicate DecisionEvidenceOk(t: TextRules, r: Roadmap) {
    && NoDuplicates(r.decisionEvidence)
    && (forall row | row in r.decisionEvidence :: DecisionRowOk(t, IndexGaps(r.gaps), row))
    && (forall g | g in r.gaps && g.status in DECISION_STATUSES :: HasDecisionRow(t, r.decisionEvidence, g))
  }

  predicate BlockerRowOk(t: TextRules, gaps: seq<Gap>, row: BlockerRow) {
    var key, move := BlockerKey(t, row), Transition(t, row.transition);
    && !(t.empty)(row.package) && !(t.empty)(row.gaps) && !(t.empty)(row.transition)
    && !(t.empty)(row.reason) && !(t.empty)(row.reference) && !(t.empty)(row.reaudit)
    && Members(gaps, key) != []
    && multiset(ListedGaps(t, row.gaps)) == multiset(GapIds(Members(gaps, key)))
    && move.Some?
    && (move.value.0 == Blocked) != (move.value.1 == Blocked)
    && move.value.1 in AllowedTargets(move.value.0)
    && (t.durableReference)(row.reference)
    && (t.verified)(row.reaudit)
  }

  predicate HasBlockerRow(t: TextRules, rows: seq<BlockerRow>, package: Id) {
    exists row :: row in rows && BlockerKey(t, row) == package
  }

  /** The last blocker row of a package agrees with its status. */
  predicate BlockerTrailOk(t: TextRules, r: Roadmap, package: Id) {
    var blocked := Statuses(r.gaps, package) == {Blocked};
    var moves := PackageTransitions(t, r.blockerEvidence, package);
    && (blocked ==> HasBlockerRow(t, r.blockerEvidence, package))
    && (moves != [] ==> (blocked <==> moves[|moves| - 1].1 == Blocked))
  }

  predicate BlockerEvidenceOk(t: TextRules, r: Roadmap) {
    && NoDuplicates(r.blockerEvidence)
    && (forall row | row in r.blockerEvidence :: BlockerRowOk(t, r.gaps, row))
    && (forall g | g in r.gaps :: BlockerTrailOk(t, r, g.package))
  }

  predicate GapLedgerOk(t: TextRules, r: Roadmap) {
    && NoDuplicates(GapIds(r.gaps))
    && NoDuplicates(r.packageHeadings)
    && NoDuplicates(PackageIds(r.packages))
    && (forall g | g in r.gaps :: GapRowOk(t, IndexGaps(r.gaps), g))
    && (forall p | p in r.packages :: SelectorOk(IndexGaps(r.gaps), p))
    && (forall g | g in r.gaps :: SelectionOk(r.packages, g))
    && Atomic(r.gaps)
  }

  predicate ClaimsOk(t: TextRules, r: Roadmap) {
    && NoDuplicates(ClaimPackages(r.claims))
    && (forall c | c in r.claims :: ClaimOk(t, r.gaps, c))
    && ClaimedWhenInProgress(r)
  }

  /** Always true. The two largest predicates below keep their conjuncts folded
      until a proof mentions this for the document at hand. */
  ghost predicate Unfolded(r: Roadmap) { true }

  /** `validate_structure` (with `_validate_evidence`) reports nothing. */
  ghost predicate StructureOk(t: TextRules, r: Roadmap) {
    forall u {:trigger Unfolded(u)} | u == r ::
      && GapLedgerOk(t, u)
      && Acyclic(IndexGaps(u.gaps))
      && ClaimsOk(t, u)
      && DevelopEvidenceOk(t, u)
      && MainEvidenceOk(t, u)
      && DecisionEvidenceOk(t, u)
      && BlockerEvidenceOk(t, u)
  }

  // ---- A step from a base document ----------------------------------------------

  function Elements<T>(s: seq<T>): set<T> { set x | x in s }

  predicate Matches(t: TextRules, row: DecisionRow, id: Id, kind: string, edges: set<Id>) {
    && DecisionKey(t, row) == id
    && DecisionKind(t, row) == kind
    && DecisionReferences(t, row).Some?
    && Elements(DecisionReferences(t, row).value) == edges
  }

  /** Changed dependency edges need one new decision row naming exactly them. */
  predicate EdgesAccounted(t: TextRules, base: Roadmap, current: Roadmap, id: Id, kind: string, edges: set<Id>) {
    edges != {} ==>
      exists row :: row in current.decisionEvidence && row !in base.decisionEvidence && Matches(t, row, id, kind, edges)
  }

  function RemovedEdges(before: Gap, after: Gap): set<Id> { Elements(before.dependencies) - Elements(after.dependencies) }
  function AddedEdges(before: Gap, after: Gap): set<Id> { Elements(after.dependencies) - Elements(before.dependencies) }

  predicate SameRegistration(before: Gap, after: Gap) {
    && before.audit == after.audit
    && before.baselineEvidence == after.baselineEvidence
    && before.exitCondition == after.exitCondition
    && before.package == after.package
  }

  predicate HasClaim(claims: seq<Claim>, package: Id) {
    exists c :: c in claims && c.package == package
  }

  /** The GAP is DONE on the trusted main with one of the very rows shown here. */
  predicate TrustedDone(t: TextRules, trustedMain: Option<Roadmap>, current: Roadmap, id: Id) {
    && trustedMain.Some?
    && id in IndexGaps(trustedMain.value.gaps)
    && IndexGaps(trustedMain.value.gaps)[id].status == Done
    && (exists row :: row in current.mainEvidence && row in trustedMain.value.mainEvidence && MainKey(t, row) == id)
  }

  /** What a change of status, once allowed by the table, must bring with it. */
  predicate StatusChangeOk(
    t: TextRules, base: Roadmap, current: Roadmap, trustedMain: Option<Roadmap>, allowDone: bool,
    before: Gap, after: Gap)
  {
    && after.status in AllowedTargets(before.status)
    && (after.status == InProgress ==> HasClaim(current.claims, after.package))
    && (after.status == InDevelop ==>
          && (exists row :: row in current.developEvidence && row !in base.developEvidence
                            && DevelopKey(t, row) == after.package)
          && !HasClaim(current.claims, after.package))
    && (after.status == Done ==>
          && (allowDone || TrustedDone(t, trustedMain, current, after.id))
          && (exists row :: row in current.mainEvidence && row !in base.mainEvidence && MainKey(t, row) == after.id))
    && (after.status == Blocked || before.status == Blocked ==>
          exists row :: row in current.blockerEvidence && row !in base.blockerEvidence
                        && BlockerKey(t, row) == after.package
                        && Transition(t, row.transition) == Some((before.status, after.status)))
    && (after.status in DECISION_STATUSES ==>
          exists row :: row in current.decisionEvidence && row !in base.decisionEvidence
                        && DecisionKey(t, row) == after.id && DecisionKind(t, row) == StatusText(after.status))
    && (before.status == InProgress ==> !HasClaim(current.claims, after.package))
  }

  predicate KeptGapOk(
    t: TextRules, base: Roadmap, current: Roadmap, trustedMain: Option<Roadmap>, allowDone: bool,
    before: Gap, after: Gap)
  {
    && SameRegistration(before, after)
    && EdgesAccounted(t, base, current, after.id, DEPENDENCY_REMOVED, RemovedEdges(before, after))
    && EdgesAccounted(t, base, current, after.id, DEPENDENCY_ADDED, AddedEdges(before, after))
    && (before.status != after.status ==>
          StatusChangeOk(t, base, current, trustedMain, allowDone, before, after))
  }

  predicate NewGapOk(base: Roadmap, g: Gap) {
    g.status == Open && g.package !in base.packageHeadings
  }

  predicate NewDevelopRowOk(t: TextRules, base: Roadmap, current: Roadmap, row: DevelopRow) {
    && (t.structuredPass)(row.verification)
    && Statuses(base.gaps, DevelopKey(t, row)) != {InDevelop}
    && Statuses(current.gaps, DevelopKey(t, row)) == {InDevelop}
  }

  predicate NewMainRowOk(t: TextRules, base: Roadmap, current: Roadmap, row: MainRow) {
    var key, before, after := MainKey(t, row), IndexGaps(base.gaps), IndexGaps(current.gaps);
    && (t.structuredPass)(row.verification)
    && key in before && key in after
    && before[key].status != Done
    && after[key].status == Done
  }

  function EdgesOf(index: map<Id, Gap>, id: Id): set<Id> {
    if id in index then Elements(index[id].dependencies) else {}
  }

  predicate NewDecisionRowOk(t: TextRules, base: Roadmap, current: Roadmap, row: DecisionRow) {
    var key, kind, references := DecisionKey(t, row), DecisionKind(t, row), DecisionReferences(t, row);
    var before, after := IndexGaps(base.gaps), IndexGaps(current.gaps);
    var removed := EdgesOf(before, key) - EdgesOf(after, key);
    var added := EdgesOf(after, key) - EdgesOf(before, key);
    && (t.structuredPass)(row.reaudit)
    && references.Some?
    && (|| (key in before && key in after && before[key].status != after[key].status
            && StatusText(after[key].status) == kind)
        || (kind == DEPENDENCY_REMOVED && removed != {} && removed == Elements(references.value))
        || (kind == DEPENDENCY_ADDED && added != {} && added == Elements(references.value)))
  }

  predicate NewBlockerRowOk(t: TextRules, base: Roadmap, current: Roadmap, row: BlockerRow) {
    var key, move := BlockerKey(t, row), Transition(t, row.transition);
    && (t.structuredPass)(row.reaudit)
    && move.Some?
    && Statuses(base.gaps, key) == {move.value.0}
    && Statuses(current.gaps, key) == {move.value.1}
  }

  /** The result keeps every DONE of the trusted main, with its closure rows. */
  predicate MainSyncOk(t: TextRules, main: Roadmap, current: Roadmap) {
    forall id | id in IndexGaps(main.gaps) && IndexGaps(main.gaps)[id].status == Done ::
      && id in IndexGaps(current.gaps)
      && IndexGaps(current.gaps)[id].status == Done
      && (forall row | row in main.mainEvidence && MainKey(t, row) == id :: row in current.mainEvidence)
  }

  function IndexClaims(claims: seq<Claim>): (index: map<Id, Claim>)
    ensures forall p :: p in index <==> HasClaim(claims, p)
    ensures forall p | p in index :: index[p] in claims && index[p].package == p
  {
    if claims == [] then map[]
    else
      var init, last := claims[..|claims| - 1], claims[|claims| - 1];
      assert claims == init + [last];
      IndexClaims(init)[last.package := last]
  }

  predicate ClaimsKeptOk(base: Roadmap, current: Roadmap) {
    var before, after := IndexClaims(base.claims), IndexClaims(current.claims);
    forall p | p in before && p in after
               && Statuses(base.gaps, p) == {InProgress} && Statuses(current.gaps, p) == {InProgress} ::
      before[p] == after[p]
  }

  predicate EvidenceAppended(base: Roadmap, current: Roadmap) {
    && base.developEvidence <= current.developEvidence
    && base.mainEvidence <= current.mainEvidence
    && base.decisionEvidence <= current.decisionEvidence
    && base.blockerEvidence <= current.blockerEvidence
  }

  predicate GapChangesOk(
    t: TextRules, base: Roadmap, current: Roadmap, trustedMain: Option<Roadmap>, allowDone: bool)
  {
    var before, after := IndexGaps(base.gaps), IndexGaps(current.gaps);
    && before.Keys <= after.Keys
    && GapIds(base.gaps) <= GapIds(current.gaps)
    && (forall id | id in after && id !in before :: NewGapOk(base, after[id]))
    && (forall id | id in before && id in after ::
          KeptGapOk(t, base, current, trustedMain, allowDone, before[id], after[id]))
  }

  predicate NewEvidenceOk(t: TextRules, base: Roadmap, current: Roadmap) {
    && (forall row | row in current.developEvidence && row !in base.developEvidence ::
          NewDevelopRowOk(t, base, current, row))
    && (forall row | row in current.mainEvidence && row !in base.mainEvidence ::
          NewMainRowOk(t, base, current, row))
    && (forall row | row in current.decisionEvidence && row !in base.decisionEvidence ::
          NewDecisionRowOk(t, base, current, row))
    && (forall row | row in current.blockerEvidence && row !in base.blockerEvidence ::
          NewBlockerRowOk(t, base, current, row))
  }

  /** `validate_transitions` reports nothing. */
  ghost predicate TransitionsOk(
    t: TextRules, base: Roadmap, current: Roadmap, trustedMain: Option<Roadmap>, allowDone: bool)
  {
    forall u {:trigger Unfolded(u)} | u == current ::
      && GapChangesOk(t, base, u, trustedMain, allowDone)
      && NewEvidenceOk(t, base, u)
      && (trustedMain.Some? ==> MainSyncOk(t, trustedMain.value, u))
      && ClaimsKeptOk(base, u)
      && EvidenceAppended(base, u)
  }

  // ---- The two kinds of step on main ---------------------------------------------

  /** Everything the tracking mask leaves visible: all but status and closure rows. */
  predicate SameOutsideStatus(before: Gap, after: Gap) {
    after.(status := before.status) == before
  }

  /** `validate_main_tracking` reports nothing. */
  predicate TrackingOk(base: Roadmap, current: Roadmap) {
    var before, after := IndexGaps(base.gaps), IndexGaps(current.gaps);
    && |base.gaps| == |current.gaps|
    && (forall i | 0 <= i < |base.gaps| :: SameOutsideStatus(base.gaps[i], current.gaps[i]))
    && (forall id | id in before && id in after ::
          before[id].status == after[id].status || (before[id].status == InDevelop && after[id].status == Done))
    && current.packageHeadings == base.packageHeadings
    && current.packages == base.packages
    && current.claims == base.claims
    && current.developEvidence == base.developEvidence
    && current.decisionEvidence == base.decisionEvidence
    && current.blockerEvidence == base.blockerEvidence
  }

  predicate PromotedGapOk(before: Gap, after: Gap) {
    SameRegistration(before, after) && (before.status == Done ==> after.status == Done)
  }

  /** `validate_main_promotion` reports nothing. */
  predicate PromotionOk(baseMain: Option<Roadmap>, current: Roadmap, trustedDevelop: Roadmap) {
    && current == trustedDevelop
    && (baseMain.Some? ==>
          var base := baseMain.value;
          var before, after := IndexGaps(base.gaps), IndexGaps(current.gaps);
          && GapIds(base.gaps) <= GapIds(current.gaps)
          && before.Keys <= after.Keys
          && (forall id | id in before && id in after :: PromotedGapOk(before[id], after[id]))
          && EvidenceAppended(base, current))
  }

  // ---- The whole check -------------------------------------------------------------

  datatype Branch = Develop | Main | OtherBranch
  datatype Event = PullRequest | Push

  ghost predicate DocumentOk(t: TextRules, r: Option<Roadmap>) {
    r.Some? ==> Parsed(t, r.value) && StructureOk(t, r.value)
  }

  predicate ExactPromotion(target: Branch, event: Event, current: Roadmap, trustedDevelop: Option<Roadmap>) {
    && target == Main
    && trustedDevelop.Some?
    && (event == PullRequest || current == trustedDevelop.value)
  }

  /** `check` returns no finding. */
  ghost predicate Accepted(
    t: TextRules, target: Branch, event: Event, base: Option<Roadmap>, current: Roadmap,
    trustedMain: Option<Roadmap>, trustedDevelop: Option<Roadmap>)
  {
    && DocumentOk(t, Some(current)) && DocumentOk(t, base)
    && DocumentOk(t, trustedMain) && DocumentOk(t, trustedDevelop)
    && target != OtherBranch
    && !(trustedMain.Some? && trustedDevelop.Some?)
    && (trustedMain.Some? ==> target == Develop)
    && (trustedDevelop.Some? ==> target == Main)
    && (if ExactPromotion(target, event, current, trustedDevelop) then
          PromotionOk(base, current, trustedDevelop.value)
        else
          && base.Some?
          && TransitionsOk(t, base.value, current, trustedMain, target == Main)
          && (target == Main ==> TrackingOk(base.value, current)))
  }
}
