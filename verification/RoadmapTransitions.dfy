/** The base-relative validators and the whole check, as loops over rows. */
module RoadmapTransitions {
  import opened Prelude
  import opened RoadmapModel
  import opened RoadmapRules
  import opened RoadmapChecker

  /** A step under validation, with the rows it adds to each evidence table. */
  datatype Candidate = Candidate(
    base: Roadmap, current: Roadmap, trustedMain: Option<Roadmap>, allowDone: bool,
    newDevelop: seq<DevelopRow>, newMain: seq<MainRow>, newDecisions: seq<DecisionRow>, newBlockers: seq<BlockerRow>)
  {
    predicate Prepared() {
      && newDevelop == NewRows(base.developEvidence, current.developEvidence)
      && newMain == NewRows(base.mainEvidence, current.mainEvidence)
      && newDecisions == NewRows(base.decisionEvidence, current.decisionEvidence)
      && newBlockers == NewRows(base.blockerEvidence, current.blockerEvidence)
    }
  }

  datatype Change =
    | GapRemoved | GapsReordered | NewGapNotOpen | NewGapInOldPackage | AuditChanged | BaselineChanged
    | ExitChanged | PackageChanged | EdgesRemoved | EdgesAdded | IllegalMove | NoActiveClaim
    | NoDevelopEvidence | ClaimNotRemoved | DoneNotAllowed | NoClosureEvidence | NoBlockerEvidence
    | NoDecisionEvidence | ClaimKeptAfterProgress | NoStructuredPass | NoMatchingMove | UnreadableDecision
    | MainDoneLost | MainRowsLost | ClaimChanged | EvidenceNotAppended
    | LedgerRowsChanged | PackagesChanged | ClaimsChanged | DevelopEvidenceChanged | DecisionEvidenceChanged
    | BlockerEvidenceChanged | DocumentChanged | DependenciesChanged | NotAClosure
    | NotTrustedDocument | HistoryRewritten | RegistrationRewritten | DoneRegressed
    | UnknownBranch | TrustExclusive | TrustMisplaced | DocumentMalformed | NoBaseDocument

  datatype Objection = Objection(subject: Id, change: Change)
  type Objections = seq<Objection>

  method Prepare(base: Roadmap, current: Roadmap, trustedMain: Option<Roadmap>, allowDone: bool) returns (c: Candidate)
    ensures c.Prepared() && c.base == base && c.current == current
    ensures c.trustedMain == trustedMain && c.allowDone == allowDone
  {
    c := Candidate(base, current, trustedMain, allowDone,
                   NewRows(base.developEvidence, current.developEvidence),
                   NewRows(base.mainEvidence, current.mainEvidence),
                   NewRows(base.decisionEvidence, current.decisionEvidence),
                   NewRows(base.blockerEvidence, current.blockerEvidence));
  }

  // ---- One kept GAP ------------------------------------------------------------------

  method CheckStatusChange(t: TextRules, c: Candidate, before: Gap, after: Gap) returns (errors: Objections)
    requires c.Prepared() && before.status != after.status
    ensures errors == [] <==> StatusChangeOk(t, c.base, c.current, c.trustedMain, c.allowDone, before, after)
  {
    hide NewRows;
    errors := [];
    if after.status !in AllowedTargets(before.status) {
      return [Objection(after.id, IllegalMove)];
    }
    var claimed := HasClaim(c.current.claims, after.package);
    if after.status == InProgress && !claimed {
      errors := errors + [Objection(after.id, NoActiveClaim)];
    }
    if after.status == InDevelop {
      if !exists row :: row in c.newDevelop && DevelopKey(t, row) == after.package {
        errors := errors + [Objection(after.id, NoDevelopEvidence)];
      }
      if claimed { errors := errors + [Objection(after.id, ClaimNotRemoved)]; }
    }
    if after.status == Done {
      if !c.allowDone && !TrustedDone(t, c.trustedMain, c.current, after.id) {
        errors := errors + [Objection(after.id, DoneNotAllowed)];
      }
      if !exists row :: row in c.newMain && MainKey(t, row) == after.id {
        errors := errors + [Objection(after.id, NoClosureEvidence)];
      }
    }
    if after.status == Blocked || before.status == Blocked {
      if !exists row :: row in c.newBlockers && BlockerKey(t, row) == after.package
                        && Transition(t, row.transition) == Some((before.status, after.status)) {
        errors := errors + [Objection(after.id, NoBlockerEvidence)];
      }
    }
    if after.status in DECISION_STATUSES {
      if !exists row :: row in c.newDecisions && DecisionKey(t, row) == after.id
                        && DecisionKind(t, row) == StatusText(after.status) {
        errors := errors + [Objection(after.id, NoDecisionEvidence)];
      }
    }
    if before.status == InProgress && claimed {
      errors := errors + [Objection(after.id, ClaimKeptAfterProgress)];
    }
  }

  method CheckEdges(t: TextRules, c: Candidate, id: Id, kind: string, edges: set<Id>) returns (accounted: bool)
    requires c.Prepared()
    ensures accounted <==> EdgesAccounted(t, c.base, c.current, id, kind, edges)
  {
    hide NewRows, Matches;
    accounted := edges == {} || exists row :: row in c.newDecisions && Matches(t, row, id, kind, edges);
  }

  method CheckKeptGap(t: TextRules, c: Candidate, before: Gap, after: Gap) returns (errors: Objections)
    requires c.Prepared()
    ensures errors == [] <==> KeptGapOk(t, c.base, c.current, c.trustedMain, c.allowDone, before, after)
  {
    hide StatusChangeOk, EdgesAccounted;
    errors := [];
    if before.audit != after.audit { errors := errors + [Objection(after.id, AuditChanged)]; }
    if before.baselineEvidence != after.baselineEvidence { errors := errors + [Objection(after.id, BaselineChanged)]; }
    if before.exitCondition != after.exitCondition { errors := errors + [Objection(after.id, ExitChanged)]; }
    if before.package != after.package { errors := errors + [Objection(after.id, PackageChanged)]; }
    var removed := CheckEdges(t, c, after.id, DEPENDENCY_REMOVED, RemovedEdges(before, after));
    if !removed { errors := errors + [Objection(after.id, EdgesRemoved)]; }
    var added := CheckEdges(t, c, after.id, DEPENDENCY_ADDED, AddedEdges(before, after));
    if !added { errors := errors + [Objection(after.id, EdgesAdded)]; }
    if before.status != after.status {
      var moved := CheckStatusChange(t, c, before, after);
      errors := errors + moved;
    }
  }

  method CheckGapChanges(t: TextRules, c: Candidate, before: map<Id, Gap>, after: map<Id, Gap>)
    returns (errors: Objections)
    requires c.Prepared() && before == IndexGaps(c.base.gaps) && after == IndexGaps(c.current.gaps)
    ensures errors == [] <==> GapChangesOk(t, c.base, c.current, c.trustedMain, c.allowDone)
  {
    RootsAreKnown(c.base.gaps);
    RootsAreKnown(c.current.gaps);
    hide IndexGaps, KeptGapOk, NewRows;
    var baseIds, currentIds := GapIds(c.base.gaps), GapIds(c.current.gaps);
    errors := [];
    if !(before.Keys <= after.Keys) { errors := errors + [Objection("", GapRemoved)]; }
    if !(baseIds <= currentIds) { errors := errors + [Objection("", GapsReordered)]; }
    ghost var listed := errors;
    for i := 0 to |currentIds|
      invariant errors == [] <==>
        listed == [] && forall id | id in currentIds[..i] && id !in before :: NewGapOk(c.base, after[id])
    {
      var id := currentIds[i];
      assert currentIds[..i + 1] == currentIds[..i] + [id];
      if id !in before {
        if after[id].status != Open { errors := errors + [Objection(id, NewGapNotOpen)]; }
        if after[id].package in c.base.packageHeadings { errors := errors + [Objection(id, NewGapInOldPackage)]; }
      }
    }
    assert currentIds[..|currentIds|] == currentIds;
    ghost var added := errors;
    for i := 0 to |baseIds|
      invariant errors == [] <==>
        added == [] && forall id | id in baseIds[..i] && id in after ::
          KeptGapOk(t, c.base, c.current, c.trustedMain, c.allowDone, before[id], after[id])
    {
      var id := baseIds[i];
      assert baseIds[..i + 1] == baseIds[..i] + [id];
      if id in after {
        var kept := CheckKeptGap(t, c, before[id], after[id]);
        errors := errors + kept;
      }
    }
    assert baseIds[..|baseIds|] == baseIds;
  }

  // ---- New evidence rows -----------------------------------------------------------------

  method CheckNewDevelopRow(t: TextRules, c: Candidate, row: DevelopRow) returns (errors: Objections)
    ensures errors == [] <==> NewDevelopRowOk(t, c.base, c.current, row)
  {
    var key := DevelopKey(t, row);
    errors := [];
    if !(t.structuredPass)(row.verification) { errors := errors + [Objection(key, NoStructuredPass)]; }
    if !(Statuses(c.base.gaps, key) != {InDevelop} && Statuses(c.current.gaps, key) == {InDevelop}) {
      errors := errors + [Objection(key, NoMatchingMove)];
    }
  }

  method CheckNewDevelopRows(t: TextRules, c: Candidate) returns (errors: Objections)
    requires c.Prepared()
    ensures errors == [] <==>
      forall row | row in c.current.developEvidence && row !in c.base.developEvidence ::
        NewDevelopRowOk(t, c.base, c.current, row)
  {
    hide NewRows, NewDevelopRowOk;
    var rows := c.newDevelop;
    errors := [];
    for i := 0 to |rows|
      invariant errors == [] <==> forall row | row in rows[..i] :: NewDevelopRowOk(t, c.base, c.current, row)
    {
      assert rows[..i + 1] == rows[..i] + [rows[i]];
      var row := CheckNewDevelopRow(t, c, rows[i]);
      errors := errors + row;
    }
    assert rows[..|rows|] == rows;
  }

  method CheckNewMainRow(t: TextRules, c: Candidate, before: map<Id, Gap>, after: map<Id, Gap>, row: MainRow)
    returns (errors: Objections)
    requires before == IndexGaps(c.base.gaps) && after == IndexGaps(c.current.gaps)
    ensures errors == [] <==> NewMainRowOk(t, c.base, c.current, row)
  {
    hide IndexGaps;
    var key := MainKey(t, row);
    errors := [];
    if !(t.structuredPass)(row.verification) { errors := errors + [Objection(key, NoStructuredPass)]; }
    if key !in before || key !in after || before[key].status == Done || after[key].status != Done {
      errors := errors + [Objection(key, NoMatchingMove)];
    }
  }

  method CheckNewMainRows(t: TextRules, c: Candidate, before: map<Id, Gap>, after: map<Id, Gap>)
    returns (errors: Objections)
    requires c.Prepared() && before == IndexGaps(c.base.gaps) && after == IndexGaps(c.current.gaps)
    ensures errors == [] <==>
      forall row | row in c.current.mainEvidence && row !in c.base.mainEvidence ::
        NewMainRowOk(t, c.base, c.current, row)
  {
    hide NewRows, IndexGaps, NewMainRowOk;
    var rows := c.newMain;
    errors := [];
    for i := 0 to |rows|
      invariant errors == [] <==> forall row | row in rows[..i] :: NewMainRowOk(t, c.base, c.current, row)
    {
      assert rows[..i + 1] == rows[..i] + [rows[i]];
      var row := CheckNewMainRow(t, c, before, after, rows[i]);
      errors := errors + row;
    }
    assert rows[..|rows|] == rows;
  }

  method CheckNewDecisionRow(t: TextRules, c: Candidate, before: map<Id, Gap>, after: map<Id, Gap>, row: DecisionRow)
    returns (errors: Objections)
    requires before == IndexGaps(c.base.gaps) && after == IndexGaps(c.current.gaps)
    ensures errors == [] <==> NewDecisionRowOk(t, c.base, c.current, row)
  {
    hide IndexGaps;
    var key, kind := DecisionKey(t, row), DecisionKind(t, row);
    errors := [];
    if !(t.structuredPass)(row.reaudit) { errors := errors + [Objection(key, NoStructuredPass)]; }
    match DecisionReferences(t, row) {
      case None => errors := errors + [Objection(key, UnreadableDecision)];
      case Some(ids) =>
        var statusMove :=
          key in before && key in after && before[key].status != after[key].status
          && StatusText(after[key].status) == kind;
        var beforeEdges, afterEdges := EdgesOf(before, key), EdgesOf(after, key);
        var removed, added := beforeEdges - afterEdges, afterEdges - beforeEdges;
        var removal := kind == DEPENDENCY_REMOVED && removed != {} && removed == Elements(ids);
        var addition := kind == DEPENDENCY_ADDED && added != {} && added == Elements(ids);
        if !statusMove && !removal && !addition { errors := errors + [Objection(key, NoMatchingMove)]; }
    }
  }

  method CheckNewDecisionRows(t: TextRules, c: Candidate, before: map<Id, Gap>, after: map<Id, Gap>)
    returns (errors: Objections)
    requires c.Prepared() && before == IndexGaps(c.base.gaps) && after == IndexGaps(c.current.gaps)
    ensures errors == [] <==>
      forall row | row in c.current.decisionEvidence && row !in c.base.decisionEvidence ::
        NewDecisionRowOk(t, c.base, c.current, row)
  {
    hide NewRows, IndexGaps, NewDecisionRowOk;
    var rows := c.newDecisions;
    errors := [];
    for i := 0 to |rows|
      invariant errors == [] <==> forall row | row in rows[..i] :: NewDecisionRowOk(t, c.base, c.current, row)
    {
      assert rows[..i + 1] == rows[..i] + [rows[i]];
      var row := CheckNewDecisionRow(t, c, before, after, rows[i]);
      errors := errors + row;
    }
    assert rows[..|rows|] == rows;
  }

  method CheckNewBlockerRow(t: TextRules, c: Candidate, row: BlockerRow) returns (errors: Objections)
    ensures errors == [] <==> NewBlockerRowOk(t, c.base, c.current, row)
  {
    var key, move := BlockerKey(t, row), Transition(t, row.transition);
    errors := [];
    if !(t.structuredPass)(row.reaudit) { errors := errors + [Objection(key, NoStructuredPass)]; }
    if move.None? || Statuses(c.base.gaps, key) != {move.value.0} || Statuses(c.current.gaps, key) != {move.value.1} {
      errors := errors + [Objection(key, NoMatchingMove)];
    }
  }

  method CheckNewBlockerRows(t: TextRules, c: Candidate) returns (errors: Objections)
    requires c.Prepared()
    ensures errors == [] <==>
      forall row | row in c.current.blockerEvidence && row !in c.base.blockerEvidence ::
        NewBlockerRowOk(t, c.base, c.current, row)
  {
    hide NewRows, NewBlockerRowOk;
    var rows := c.newBlockers;
    errors := [];
    for i := 0 to |rows|
      invariant errors == [] <==> forall row | row in rows[..i] :: NewBlockerRowOk(t, c.base, c.current, row)
    {
      assert rows[..i + 1] == rows[..i] + [rows[i]];
      var row := CheckNewBlockerRow(t, c, rows[i]);
      errors := errors + row;
    }
    assert rows[..|rows|] == rows;
  }

  // ---- Synchronisation, claims, append-only tables -------------------------------------------

  method CheckMainSync(t: TextRules, main: Roadmap, current: Roadmap, after: map<Id, Gap>) returns (errors: Objections)
    requires after == IndexGaps(current.gaps)
    ensures errors == [] <==> MainSyncOk(t, main, current)
  {
    RootsAreKnown(main.gaps);
    hide IndexGaps;
    var trusted := IndexRows(main.gaps);
    var ids := GapIds(main.gaps);
    errors := [];
    for i := 0 to |ids|
      invariant errors == [] <==>
        forall id | id in ids[..i] && trusted[id].status == Done ::
          && id in after && after[id].status == Done
          && (forall row | row in main.mainEvidence && MainKey(t, row) == id :: row in current.mainEvidence)
    {
      var id := ids[i];
      assert ids[..i + 1] == ids[..i] + [id];
      if trusted[id].status == Done {
        if id !in after || after[id].status != Done { errors := errors + [Objection(id, MainDoneLost)]; }
        if exists row :: row in main.mainEvidence && MainKey(t, row) == id && row !in current.mainEvidence {
          errors := errors + [Objection(id, MainRowsLost)];
        }
      }
    }
    assert ids[..|ids|] == ids;
  }

  lemma ActivePackages(claims: seq<Claim>)
    ensures forall p :: p in ClaimPackages(claims) <==> p in IndexClaims(claims)
  {
    var packages, index := ClaimPackages(claims), IndexClaims(claims);
    forall p
      ensures p in packages <==> p in index
    {
      if p in packages {
        var i :| 0 <= i < |packages| && packages[i] == p;
        assert claims[i] in claims;
      }
      if p in index {
        var i :| 0 <= i < |claims| && claims[i] == index[p];
        assert packages[i] == p;
      }
    }
  }

  predicate ClaimKept(base: Roadmap, current: Roadmap, before: Claim, after: Claim, package: Id) {
    Statuses(base.gaps, package) == {InProgress} && Statuses(current.gaps, package) == {InProgress} ==> before == after
  }

  method CheckClaimsKept(base: Roadmap, current: Roadmap) returns (errors: Objections)
    ensures errors == [] <==> ClaimsKeptOk(base, current)
  {
    ActivePackages(base.claims);
    var before := IndexActiveClaims(base.claims);
    var after := IndexActiveClaims(current.claims);
    var packages := ClaimPackages(base.claims);
    hide IndexClaims, Statuses, ClaimPackages, HasClaim;
    errors := [];
    for i := 0 to |packages|
      invariant errors == [] <==>
        forall p | p in packages[..i] && p in before && p in after :: ClaimKept(base, current, before[p], after[p], p)
    {
      var p := packages[i];
      assert packages[..i + 1] == packages[..i] + [p];
      if p in after && Statuses(base.gaps, p) == {InProgress} && Statuses(current.gaps, p) == {InProgress}
         && before[p] != after[p] {
        errors := errors + [Objection(p, ClaimChanged)];
      }
    }
    assert packages[..|packages|] == packages;
  }

  method CheckAppended(base: Roadmap, current: Roadmap) returns (errors: Objections)
    ensures errors == [] <==> EvidenceAppended(base, current)
  {
    errors := [];
    if !(base.developEvidence <= current.developEvidence) { errors := errors + [Objection("", EvidenceNotAppended)]; }
    if !(base.mainEvidence <= current.mainEvidence) { errors := errors + [Objection("", EvidenceNotAppended)]; }
    if !(base.decisionEvidence <= current.decisionEvidence) { errors := errors + [Objection("", EvidenceNotAppended)]; }
    if !(base.blockerEvidence <= current.blockerEvidence) { errors := errors + [Objection("", EvidenceNotAppended)]; }
  }

  /** `validate_transitions`. */
  method ValidateTransitions(
    t: TextRules, base: Roadmap, current: Roadmap, trustedMain: Option<Roadmap>, allowDone: bool)
    returns (errors: Objections)
    ensures errors == [] <==> TransitionsOk(t, base, current, trustedMain, allowDone)
  {
    hide GapChangesOk, MainSyncOk, ClaimsKeptOk, EvidenceAppended, IndexGaps, NewRows;
    hide NewDevelopRowOk, NewMainRowOk, NewDecisionRowOk, NewBlockerRowOk;
    var c := Prepare(base, current, trustedMain, allowDone);
    var before := IndexRows(base.gaps);
    var after := IndexRows(current.gaps);
    var gaps := CheckGapChanges(t, c, before, after);
    var develop := CheckNewDevelopRows(t, c);
    var main := CheckNewMainRows(t, c, before, after);
    var decisions := CheckNewDecisionRows(t, c, before, after);
    var blockers := CheckNewBlockerRows(t, c);
    var sync: Objections := [];
    if trustedMain.Some? {
      sync := CheckMainSync(t, trustedMain.value, current, after);
    }
    var claims := CheckClaimsKept(base, current);
    var appended := CheckAppended(base, current);
    errors := gaps + develop + main + decisions + blockers + sync + claims + appended;
    assert NewEvidenceOk(t, base, current) <==> develop == main == [] && decisions == [] && blockers == [];
    hide NewEvidenceOk;
    assert Unfolded(current);
  }

  // ---- The two kinds of step on main --------------------------------------------------------

  /** The masked-document comparison, on parsed rows. */
  method SameMaskedRows(base: seq<Gap>, current: seq<Gap>) returns (same: bool)
    ensures same <==>
      |base| == |current| && forall i | 0 <= i < |base| :: SameOutsideStatus(base[i], current[i])
  {
    if |base| != |current| { return false; }
    for i := 0 to |base|
      invariant forall j | 0 <= j < i :: SameOutsideStatus(base[j], current[j])
    {
      if !SameOutsideStatus(base[i], current[i]) { return false; }
    }
    return true;
  }

  predicate TrackedRow(before: Gap, after: Gap) {
    && before.dependencies == after.dependencies
    && (before.status == after.status || (before.status == InDevelop && after.status == Done))
  }

  method CheckTrackedStatuses(ids: seq<Id>, before: map<Id, Gap>, after: map<Id, Gap>) returns (errors: Objections)
    requires forall id | id in ids :: id in before
    ensures errors == [] <==> forall id | id in ids && id in after :: TrackedRow(before[id], after[id])
  {
    errors := [];
    for i := 0 to |ids|
      invariant errors == [] <==>
        forall id | id in ids[..i] && id in after :: TrackedRow(before[id], after[id])
    {
      var id := ids[i];
      assert ids[..i + 1] == ids[..i] + [id];
      if id in after {
        if before[id].dependencies != after[id].dependencies { errors := errors + [Objection(id, DependenciesChanged)]; }
        if before[id].status != after[id].status && !(before[id].status == InDevelop && after[id].status == Done) {
          errors := errors + [Objection(id, NotAClosure)];
        }
      }
    }
    assert ids[..|ids|] == ids;
  }

  /** Under the mask, the rows found by one id are the same but for their status. */
  lemma {:induction false} MaskedRows(base: seq<Gap>, current: seq<Gap>)
    requires |base| == |current| && forall i | 0 <= i < |base| :: SameOutsideStatus(base[i], current[i])
    ensures IndexGaps(base).Keys == IndexGaps(current).Keys
    ensures forall id | id in IndexGaps(base) :: SameOutsideStatus(IndexGaps(base)[id], IndexGaps(current)[id])
  {
    if base != [] {
      MaskedRows(base[..|base| - 1], current[..|current| - 1]);
      assert SameOutsideStatus(base[|base| - 1], current[|base| - 1]);
    }
  }

  /** `validate_main_tracking`. */
  method ValidateMainTracking(base: Roadmap, current: Roadmap) returns (errors: Objections)
    ensures errors == [] <==> TrackingOk(base, current)
  {
    RootsAreKnown(base.gaps);
    var before := IndexRows(base.gaps);
    var after := IndexRows(current.gaps);
    hide IndexGaps, GapIds;
    errors := [];
    if GapIds(current.gaps) != GapIds(base.gaps) { errors := errors + [Objection("", LedgerRowsChanged)]; }
    if current.packageHeadings != base.packageHeadings || current.packages != base.packages {
      errors := errors + [Objection("", PackagesChanged)];
    }
    if current.claims != base.claims { errors := errors + [Objection("", ClaimsChanged)]; }
    if current.developEvidence != base.developEvidence { errors := errors + [Objection("", DevelopEvidenceChanged)]; }
    if current.decisionEvidence != base.decisionEvidence { errors := errors + [Objection("", DecisionEvidenceChanged)]; }
    if current.blockerEvidence != base.blockerEvidence { errors := errors + [Objection("", BlockerEvidenceChanged)]; }
    var same := SameMaskedRows(base.gaps, current.gaps);
    if !same { errors := errors + [Objection("", DocumentChanged)]; }
    if same {
      MaskKeepsIds(base.gaps, current.gaps);
      MaskedRows(base.gaps, current.gaps);
    }
    var statuses := CheckTrackedStatuses(GapIds(base.gaps), before, after);
    errors := errors + statuses;
  }

  lemma MaskKeepsIds(base: seq<Gap>, current: seq<Gap>)
    requires |base| == |current| && forall i | 0 <= i < |base| :: SameOutsideStatus(base[i], current[i])
    ensures GapIds(current) == GapIds(base)
  {
    forall i | 0 <= i < |base|
      ensures base[i].id == current[i].id
    {
      assert SameOutsideStatus(base[i], current[i]);
    }
  }

  method CheckPromotedRows(ids: seq<Id>, before: map<Id, Gap>, after: map<Id, Gap>) returns (errors: Objections)
    requires forall id | id in ids :: id in before
    ensures errors == [] <==> forall id | id in ids :: id in after && PromotedGapOk(before[id], after[id])
  {
    hide SameRegistration;
    errors := [];
    for i := 0 to |ids|
      invariant errors == [] <==> forall id | id in ids[..i] :: id in after && PromotedGapOk(before[id], after[id])
    {
      var id := ids[i];
      assert ids[..i + 1] == ids[..i] + [id];
      if id !in after {
        errors := errors + [Objection(id, GapRemoved)];
      } else {
        if !SameRegistration(before[id], after[id]) { errors := errors + [Objection(id, RegistrationRewritten)]; }
        if before[id].status == Done && after[id].status != Done { errors := errors + [Objection(id, DoneRegressed)]; }
      }
    }
    assert ids[..|ids|] == ids;
  }

  /** `validate_main_promotion`. */
  method ValidateMainPromotion(baseMain: Option<Roadmap>, current: Roadmap, trustedDevelop: Roadmap)
    returns (errors: Objections)
    ensures errors == [] <==> PromotionOk(baseMain, current, trustedDevelop)
  {
    hide PromotedGapOk, EvidenceAppended, GapIds;
    errors := if current != trustedDevelop then [Objection("", NotTrustedDocument)] else [];
    if baseMain.None? { return; }
    var base := baseMain.value;
    RootsAreKnown(base.gaps);
    var before := IndexRows(base.gaps);
    var after := IndexRows(current.gaps);
    hide IndexGaps;
    if !(GapIds(base.gaps) <= GapIds(current.gaps)) { errors := errors + [Objection("", HistoryRewritten)]; }
    var rows := CheckPromotedRows(GapIds(base.gaps), before, after);
    var appended := CheckAppended(base, current);
    errors := errors + rows + appended;
  }

  // ---- The whole check ------------------------------------------------------------------------

  method CheckDocument(t: TextRules, r: Option<Roadmap>) returns (errors: Objections)
    requires r.Some? ==> Parsed(t, r.value)
    ensures errors == [] <==> DocumentOk(t, r)
  {
    errors := [];
    if r.Some? {
      var findings := ValidateStructure(t, r.value);
      if findings != [] { errors := [Objection("", DocumentMalformed)]; }
    }
  }

  /** `check`, on parsed documents. */
  method Check(
    t: TextRules, target: Branch, event: Event, base: Option<Roadmap>, current: Roadmap,
    trustedMain: Option<Roadmap>, trustedDevelop: Option<Roadmap>)
    returns (errors: Objections)
    requires Parsed(t, current)
    requires base.Some? ==> Parsed(t, base.value)
    requires trustedMain.Some? ==> Parsed(t, trustedMain.value)
    requires trustedDevelop.Some? ==> Parsed(t, trustedDevelop.value)
    ensures errors == [] <==> Accepted(t, target, event, base, current, trustedMain, trustedDevelop)
  {
    hide Parsed, StructureOk, TransitionsOk, TrackingOk, PromotionOk;
    var own := CheckDocument(t, Some(current));
    errors := own;
    if target == OtherBranch { errors := errors + [Objection("", UnknownBranch)]; }
    if trustedMain.Some? && trustedDevelop.Some? { errors := errors + [Objection("", TrustExclusive)]; }
    if trustedMain.Some? && target != Develop { errors := errors + [Objection("", TrustMisplaced)]; }
    if trustedDevelop.Some? && target != Main { errors := errors + [Objection("", TrustMisplaced)]; }
    var main := CheckDocument(t, trustedMain);
    var develop := CheckDocument(t, trustedDevelop);
    var previous := CheckDocument(t, base);
    errors := errors + main + develop + previous;
    if ExactPromotion(target, event, current, trustedDevelop) {
      var promotion := ValidateMainPromotion(base, current, trustedDevelop.value);
      errors := errors + promotion;
      return;
    }
    if base.None? {
      errors := errors + [Objection("", NoBaseDocument)];
      return;
    }
    var transitions := ValidateTransitions(t, base.value, current, trustedMain, target == Main);
    errors := errors + transitions;
    if target == Main {
      var tracking := ValidateMainTracking(base.value, current);
      errors := errors + tracking;
    }
  }
}
