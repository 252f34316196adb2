/** The checker itself: loops that fill dictionaries and append findings. Each
    method reports nothing exactly when the predicate it is named after holds. */
module RoadmapChecker {
  import opened Prelude
  import opened RoadmapModel
  import opened RoadmapRules
  import opened DependencyCycle

  /** What a check complains about, and for which GAP or package. */
  datatype Finding = Finding(subject: Id, rule: Rule)
  type Findings = seq<Finding>

  datatype Rule =
    | DependencyNotDelivered | UnknownAuditClass | BaselineEvidenceNotMeaningful
    | ExitConditionNotMeaningful | UnknownStatus | InvalidClosurePackage | MissingDependencies
    | DependenciesOnTerminalDecisions | GapSelectorIsEmpty | SelectorNamesAnUnknownGap
    | LedgerPackageDiffersFromTheSelectingPackage | NotSelectedByExactlyOnePackage
    | ClosurePackageHasNoSelector | NonAtomicPackageStatuses | ActiveClaimNamesAnUnknownPackage
    | ActiveClaimGapsDifferFromPackageGaps | PackageIsNotInProgress | EmptyOwner | EmptyBranch
    | EmptyClaimEvidence | EmptyTimestamp | OwnerFormat | InvalidBranch | NoPrLink | TimestampIsNotUtc
    | InProgressPackageHasNoActiveClaim | DevelopEvidenceNamesAnUnknownPackage
    | DevelopEvidenceGapsDifferFromPackageGaps | ProspectiveEvidence | NoFeaturePrLink | NoMergeSha
    | NoVerificationResult | DeliveredPackageLacksEvidence | MainEvidenceNamesAnUnknownGap
    | ProspectiveClosureEvidence | NoFeaturePrOrSha | NoRelease | MigrationNotMeaningful
    | DocumentationNotMeaningful | DoneGapLacksClosureEvidence | DecisionEvidenceNamesAnUnknownGap
    | InvalidDecision | DecisionDoesNotMatchGapStatus | UnreadableReferences | DecisionMustNameGaps
    | DecisionNamesUnknownGaps | DecisionCannotReferenceItself | RationaleTooShort | NoPrLinkOrSha
    | NoReAuditResult | DecidedGapLacksDecisionEvidence | BlockerEvidenceNamesAnUnknownPackage
    | BlockerEvidenceGapsDifferFromPackageGaps | InvalidTransition | TransitionMustEnterOrLeaveBlocked
    | IllegalTransition | NoDurableReference | BlockedPackageLacksBlockerEvidence
    | LatestRowDoesNotEnterBlocked | RecoveryLacksAnExitRow | DuplicateActiveClaims
    | DuplicateDevelopTransitionEvidence | DuplicateMainClosureEvidence | DuplicateDecisionEvidenceRows
    | DuplicateBlockerEvidenceRows | DependencyCycle | DuplicateGapIds | DuplicatePackageHeadings
    | DuplicatePackageSelectors | EvidenceCellIsEmpty

  // ---- Dictionaries --------------------------------------------------------------------

  lemma {:induction false} CountsBounded<T>(values: seq<T>)
    ensures NoDuplicates(values) <==> forall v | v in values :: multiset(values)[v] == 1
    decreases |values|
  {
    if values != [] {
      var init, last := values[..|values| - 1], values[|values| - 1];
      assert values == init + [last];
      CountsBounded(init);
      if NoDuplicates(values) {
        assert last !in init;
      } else if NoDuplicates(init) {
        var i, j :| 0 <= i < j < |values| && values[i] == values[j];
        assert j == |init| && init[i] == last;
        assert last in init && multiset(values)[last] == multiset(init)[last] + 1;
      } else {
        var v :| v in init && multiset(init)[v] != 1;
        assert multiset(values)[v] >= multiset(init)[v] > 1;
      }
    }
  }

  /** `_duplicates`: the values counted more than once. */
  method Duplicates<T(==)>(values: seq<T>) returns (repeated: set<T>)
    ensures repeated == set v | v in values && multiset(values)[v] > 1
    ensures repeated == {} <==> NoDuplicates(values)
  {
    var counts: map<T, nat> := map[];
    for i := 0 to |values|
      invariant counts.Keys == set v | v in values[..i]
      invariant forall v | v in counts :: counts[v] == multiset(values[..i])[v]
    {
      assert values[..i + 1] == values[..i] + [values[i]];
      counts := counts[values[i] := if values[i] in counts then counts[values[i]] + 1 else 1];
    }
    assert values[..|values|] == values;
    repeated := set v | v in counts && counts[v] > 1;
    CountsBounded(values);
    if repeated == {} {
      forall v | v in values
        ensures multiset(values)[v] == 1
      {
        assert v in counts && v !in repeated;
      }
    }
  }

  method IndexRows(gaps: seq<Gap>) returns (index: map<Id, Gap>)
    ensures index == IndexGaps(gaps)
  {
    index := map[];
    for i := 0 to |gaps|
      invariant index == IndexGaps(gaps[..i])
    {
      assert gaps[..i + 1][..i] == gaps[..i];
      index := index[gaps[i].id := gaps[i]];
    }
    assert gaps[..|gaps|] == gaps;
  }

  method IndexActiveClaims(claims: seq<Claim>) returns (index: map<Id, Claim>)
    ensures index == IndexClaims(claims)
  {
    index := map[];
    for i := 0 to |claims|
      invariant index == IndexClaims(claims[..i])
    {
      assert claims[..i + 1][..i] == claims[..i];
      index := index[claims[i].package := claims[i]];
    }
    assert claims[..|claims|] == claims;
  }

  lemma {:induction false} NoMembers(gaps: seq<Gap>, package: Id)
    requires forall g | g in gaps :: g.package != package
    ensures Members(gaps, package) == []
    decreases |gaps|
  {
    if gaps != [] {
      NoMembers(gaps[..|gaps| - 1], package);
    }
  }

  /** `gaps_by_package`, with its keys in insertion order. */
  method GroupByPackage(gaps: seq<Gap>) returns (groups: map<Id, seq<Gap>>, order: seq<Id>)
    ensures forall p :: p in groups <==> p in order
    ensures forall p :: p in order <==> exists g :: g in gaps && g.package == p
    ensures forall p | p in groups :: groups[p] == Members(gaps, p) && groups[p] != []
  {
    groups, order := map[], [];
    for i := 0 to |gaps|
      invariant forall p :: p in groups <==> p in order
      invariant forall p :: p in order <==> exists g :: g in gaps[..i] && g.package == p
      invariant forall p | p in groups :: groups[p] == Members(gaps[..i], p) && groups[p] != []
    {
      var p := gaps[i].package;
      assert gaps[..i + 1] == gaps[..i] + [gaps[i]];
      assert gaps[..i + 1][..i] == gaps[..i];
      if p in groups {
        groups := groups[p := groups[p] + [gaps[i]]];
      } else {
        NoMembers(gaps[..i], p);
        groups, order := groups[p := [gaps[i]]], order + [p];
      }
    }
    assert gaps[..|gaps|] == gaps;
  }

  /** The grouped rows of a package; none where the dictionary has no entry. */
  function Grouped(groups: map<Id, seq<Gap>>, package: Id): seq<Gap> {
    if package in groups then groups[package] else []
  }

  function StatusSet(members: seq<Gap>): set<Status> { set g | g in members :: g.status }

  ghost predicate Groups(gaps: seq<Gap>, groups: map<Id, seq<Gap>>) {
    && (forall g | g in gaps :: g.package in groups)
    && (forall p | p in groups :: groups[p] == Members(gaps, p) && groups[p] != [])
  }

  lemma GroupedIsMembers(gaps: seq<Gap>, groups: map<Id, seq<Gap>>, package: Id)
    requires Groups(gaps, groups)
    ensures Grouped(groups, package) == Members(gaps, package)
    ensures StatusSet(Grouped(groups, package)) == Statuses(gaps, package)
  {
    var members := Members(gaps, package);
    assert members == [] || members[0] in members;
  }

  // ---- Structure ------------------------------------------------------------------------

  method CheckReadiness(index: map<Id, Gap>, g: Gap) returns (errors: Findings)
    ensures errors == [] <==> ReadinessOk(index, g)
  {
    errors := [];
    for i := 0 to |g.dependencies|
      invariant errors == [] <==> forall d | d in g.dependencies[..i] && d in index && index[d].package != g.package ::
        index[d].status in DELIVERED
    {
      var d := g.dependencies[i];
      assert g.dependencies[..i + 1] == g.dependencies[..i] + [d];
      if d in index && index[d].package != g.package && index[d].status !in DELIVERED {
        errors := errors + [Finding(g.id, DependencyNotDelivered)];
      }
    }
    assert g.dependencies[..|g.dependencies|] == g.dependencies;
  }

  method UnknownDependencies(index: map<Id, Gap>, g: Gap) returns (missing: set<Id>)
    ensures missing == {} <==> forall d | d in g.dependencies :: d in index
  {
    missing := set d | d in g.dependencies && d !in index;
    assert forall d | d in g.dependencies && d !in index :: d in missing;
  }

  method TerminalDependencies(index: map<Id, Gap>, g: Gap) returns (terminal: set<Id>)
    ensures terminal != {} <==>
      exists d | d in g.dependencies :: d in index && index[d].status in DECISION_STATUSES
  {
    terminal := set d | d in g.dependencies && d in index && index[d].status in DECISION_STATUSES;
    assert forall d | d in g.dependencies && d in index && index[d].status in DECISION_STATUSES :: d in terminal;
  }

  method CheckGapRow(t: TextRules, index: map<Id, Gap>, g: Gap) returns (errors: Findings)
    ensures errors == [] <==> GapRowOk(t, index, g)
  {
    hide ReadinessOk;
    errors := [];
    if g.audit !in AUDIT_CLASSES { errors := errors + [Finding(g.id, UnknownAuditClass)]; }
    if !(t.meaningful)(g.baselineEvidence) { errors := errors + [Finding(g.id, BaselineEvidenceNotMeaningful)]; }
    if !(t.meaningful)(g.exitCondition) { errors := errors + [Finding(g.id, ExitConditionNotMeaningful)]; }
    if g.status.Unlisted? { errors := errors + [Finding(g.id, UnknownStatus)]; }
    if !(t.packageFormat)(g.package) { errors := errors + [Finding(g.id, InvalidClosurePackage)]; }
    var missing := UnknownDependencies(index, g);
    if missing != {} { errors := errors + [Finding(g.id, MissingDependencies)]; }
    var terminal := TerminalDependencies(index, g);
    if terminal != {} && g.status !in {Blocked} + DECISION_STATUSES {
      errors := errors + [Finding(g.id, DependenciesOnTerminalDecisions)];
    }
    if g.status in DEPENDENCY_ENFORCED {
      var unready := CheckReadiness(index, g);
      errors := errors + unready;
    }
  }

  method CheckGapRows(t: TextRules, gaps: seq<Gap>, index: map<Id, Gap>) returns (errors: Findings)
    ensures errors == [] <==> forall g | g in gaps :: GapRowOk(t, index, g)
  {
    hide GapRowOk;
    errors := [];
    for i := 0 to |gaps|
      invariant errors == [] <==> forall g | g in gaps[..i] :: GapRowOk(t, index, g)
    {
      assert gaps[..i + 1] == gaps[..i] + [gaps[i]];
      var row := CheckGapRow(t, index, gaps[i]);
      errors := errors + row;
    }
    assert gaps[..|gaps|] == gaps;
  }

  function Selected(selections: map<Id, seq<Id>>, id: Id): seq<Id> {
    if id in selections then selections[id] else []
  }

  /** `before` with `package` filed under each of `ids`, once per occurrence. */
  function Filed(before: map<Id, seq<Id>>, ids: seq<Id>, package: Id): map<Id, seq<Id>> {
    if ids == [] then before
    else
      var filed := Filed(before, ids[..|ids| - 1], package);
      var id := ids[|ids| - 1];
      filed[id := Selected(filed, id) + [package]]
  }

  lemma {:induction false} FiledOccurrences(before: map<Id, seq<Id>>, ids: seq<Id>, package: Id, id: Id)
    ensures Selected(Filed(before, ids, package), id) == Selected(before, id) + Occurrences(ids, id, package)
    decreases |ids|
  {
    if ids != [] {
      FiledOccurrences(before, ids[..|ids| - 1], package, id);
    }
  }

  lemma FiledOneMore(before: map<Id, seq<Id>>, ids: seq<Id>, id: Id, package: Id)
    ensures var filed := Filed(before, ids, package);
      Filed(before, ids + [id], package) == filed[id := Selected(filed, id) + [package]]
  {
    assert (ids + [id])[..|ids|] == ids;
  }

  /** One package's selector: reports it and files its GAPs under the package. */
  method CheckSelector(index: map<Id, Gap>, p: Package, before: map<Id, seq<Id>>)
    returns (errors: Findings, selections: map<Id, seq<Id>>)
    ensures errors == [] <==> SelectorOk(index, p)
    ensures forall id :: Selected(selections, id) == Selected(before, id) + Occurrences(p.gaps, id, p.id)
  {
    errors, selections := [], before;
    assert Filed(before, p.gaps[..0], p.id) == before;
    hide Filed, Occurrences, Selected;
    if p.gaps == [] { errors := errors + [Finding(p.id, GapSelectorIsEmpty)]; }
    for i := 0 to |p.gaps|
      invariant errors == [] <==>
        p.gaps != [] && forall id | id in p.gaps[..i] :: id in index && index[id].package == p.id
      invariant selections == Filed(before, p.gaps[..i], p.id)
    {
      var id := p.gaps[i];
      assert p.gaps[..i + 1] == p.gaps[..i] + [id];
      FiledOneMore(before, p.gaps[..i], id, p.id);
      selections := selections[id := Selected(selections, id) + [p.id]];
      if id !in index {
        errors := errors + [Finding(id, SelectorNamesAnUnknownGap)];
      } else if index[id].package != p.id {
        errors := errors + [Finding(id, LedgerPackageDiffersFromTheSelectingPackage)];
      }
    }
    assert p.gaps[..|p.gaps|] == p.gaps;
    forall id
      ensures Selected(selections, id) == Selected(before, id) + Occurrences(p.gaps, id, p.id)
    {
      FiledOccurrences(before, p.gaps, p.id, id);
    }
  }

  method CheckSelectors(packages: seq<Package>, index: map<Id, Gap>)
    returns (errors: Findings, selections: map<Id, seq<Id>>)
    ensures errors == [] <==> forall p | p in packages :: SelectorOk(index, p)
    ensures forall id :: Selected(selections, id) == SelectedBy(packages, id)
  {
    hide SelectorOk, Occurrences;
    errors, selections := [], map[];
    for i := 0 to |packages|
      invariant errors == [] <==> forall p | p in packages[..i] :: SelectorOk(index, p)
      invariant forall id :: Selected(selections, id) == SelectedBy(packages[..i], id)
    {
      assert packages[..i + 1] == packages[..i] + [packages[i]] && packages[..i + 1][..i] == packages[..i];
      var row;
      row, selections := CheckSelector(index, packages[i], selections);
      errors := errors + row;
    }
    assert packages[..|packages|] == packages;
  }

  method CheckSelections(gaps: seq<Gap>, packages: seq<Package>, selections: map<Id, seq<Id>>)
    returns (errors: Findings)
    requires forall id :: Selected(selections, id) == SelectedBy(packages, id)
    ensures errors == [] <==> forall g | g in gaps :: SelectionOk(packages, g)
  {
    var known := set p | p in packages :: p.id;
    errors := [];
    for i := 0 to |gaps|
      invariant errors == [] <==> forall g | g in gaps[..i] :: SelectionOk(packages, g)
    {
      var g := gaps[i];
      assert gaps[..i + 1] == gaps[..i] + [g];
      assert g.package in known <==> exists p | p in packages :: p.id == g.package;
      var count := |Selected(selections, g.id)|;
      assert SelectionOk(packages, g) <==> count == 1 && g.package in known;
      if count != 1 { errors := errors + [Finding(g.id, NotSelectedByExactlyOnePackage)]; }
      if g.package !in known { errors := errors + [Finding(g.id, ClosurePackageHasNoSelector)]; }
    }
    assert gaps[..|gaps|] == gaps;
  }

  method CheckAtomic(gaps: seq<Gap>, groups: map<Id, seq<Gap>>, order: seq<Id>) returns (errors: Findings)
    requires Groups(gaps, groups) && forall p :: p in groups <==> p in order
    ensures errors == [] <==> Atomic(gaps)
  {
    errors := [];
    for i := 0 to |order|
      invariant errors == [] <==> forall p | p in order[..i] :: |Statuses(gaps, p)| == 1
    {
      assert order[..i + 1] == order[..i] + [order[i]];
      GroupedIsMembers(gaps, groups, order[i]);
      if |StatusSet(Grouped(groups, order[i]))| != 1 {
        errors := errors + [Finding(order[i], NonAtomicPackageStatuses)];
      }
    }
    assert order[..|order|] == order;
    AtomicBySize(gaps, order);
  }

  lemma AtomicBySize(gaps: seq<Gap>, order: seq<Id>)
    requires forall g | g in gaps :: g.package in order
    requires forall p | p in order :: Members(gaps, p) != []
    ensures (forall p | p in order :: |Statuses(gaps, p)| == 1) <==> Atomic(gaps)
  {
    if forall p | p in order :: |Statuses(gaps, p)| == 1 {
      forall g, h | g in gaps && h in gaps && g.package == h.package
        ensures g.status == h.status
      {
        var all := Statuses(gaps, g.package);
        assert g.status in all && h.status in all;
        assert |all - {g.status}| == 0;
        assert h.status !in all - {g.status};
      }
    }
    if Atomic(gaps) {
      forall p | p in order
        ensures |Statuses(gaps, p)| == 1
      {
        var g := Members(gaps, p)[0];
        assert g in Members(gaps, p);
        assert Statuses(gaps, p) == {g.status};
      }
    }
  }

  method CheckGapLedger(t: TextRules, r: Roadmap, index: map<Id, Gap>, groups: map<Id, seq<Gap>>, order: seq<Id>)
    returns (errors: Findings)
    requires index == IndexGaps(r.gaps)
    requires Groups(r.gaps, groups) && forall p :: p in groups <==> p in order
    ensures errors == [] <==> GapLedgerOk(t, r)
  {
    hide GapRowOk, SelectorOk, SelectionOk, Atomic, IndexGaps, NoDuplicates, SelectedBy;
    errors := [];
    var repeated := Duplicates(GapIds(r.gaps));
    if repeated != {} { errors := errors + [Finding("", DuplicateGapIds)]; }
    repeated := Duplicates(r.packageHeadings);
    if repeated != {} { errors := errors + [Finding("", DuplicatePackageHeadings)]; }
    repeated := Duplicates(PackageIds(r.packages));
    if repeated != {} { errors := errors + [Finding("", DuplicatePackageSelectors)]; }
    var rows := CheckGapRows(t, r.gaps, index);
    var selectors, selections := CheckSelectors(r.packages, index);
    var selected := CheckSelections(r.gaps, r.packages, selections);
    var atomic := CheckAtomic(r.gaps, groups, order);
    errors := errors + rows + selectors + selected + atomic;
  }

  method CheckClaim(t: TextRules, gaps: seq<Gap>, groups: map<Id, seq<Gap>>, c: Claim) returns (errors: Findings)
    requires Groups(gaps, groups)
    ensures errors == [] <==> ClaimOk(t, gaps, c)
  {
    GroupedIsMembers(gaps, groups, c.package);
    var members := Grouped(groups, c.package);
    errors := [];
    if members == [] {
      errors := errors + [Finding(c.package, ActiveClaimNamesAnUnknownPackage)];
    } else if multiset(c.gaps) != multiset(GapIds(members)) {
      errors := errors + [Finding(c.package, ActiveClaimGapsDifferFromPackageGaps)];
    }
    if StatusSet(members) != {InProgress} { errors := errors + [Finding(c.package, PackageIsNotInProgress)]; }
    if (t.empty)(c.owner) { errors := errors + [Finding(c.package, EmptyOwner)]; }
    if (t.empty)(c.branch) { errors := errors + [Finding(c.package, EmptyBranch)]; }
    if (t.empty)(c.evidence) { errors := errors + [Finding(c.package, EmptyClaimEvidence)]; }
    if (t.empty)(c.claimedAt) { errors := errors + [Finding(c.package, EmptyTimestamp)]; }
    if !(t.ownerFormat)(c.owner) { errors := errors + [Finding(c.package, OwnerFormat)]; }
    if !(t.branchFormat)(c.branch) { errors := errors + [Finding(c.package, InvalidBranch)]; }
    if !(t.prLink)(c.evidence) { errors := errors + [Finding(c.package, NoPrLink)]; }
    if !(t.utcTimestamp)(c.claimedAt) { errors := errors + [Finding(c.package, TimestampIsNotUtc)]; }
  }

  method CheckClaims(t: TextRules, r: Roadmap, groups: map<Id, seq<Gap>>, order: seq<Id>) returns (errors: Findings)
    requires Groups(r.gaps, groups) && forall p :: p in groups <==> p in order
    ensures errors == [] <==> ClaimsOk(t, r)
  {
    hide ClaimOk, NoDuplicates, Members, Statuses;
    var repeated := Duplicates(ClaimPackages(r.claims));
    errors := if repeated != {} then [Finding("", DuplicateActiveClaims)] else [];
    var index := IndexActiveClaims(r.claims);
    for i := 0 to |r.claims|
      invariant errors == [] <==>
        NoDuplicates(ClaimPackages(r.claims)) && forall c | c in r.claims[..i] :: ClaimOk(t, r.gaps, c)
    {
      assert r.claims[..i + 1] == r.claims[..i] + [r.claims[i]];
      var row := CheckClaim(t, r.gaps, groups, r.claims[i]);
      errors := errors + row;
    }
    assert r.claims[..|r.claims|] == r.claims;
    ghost var before := errors;
    for i := 0 to |order|
      invariant errors == [] <==>
        before == [] && forall p | p in order[..i] && Statuses(r.gaps, p) == {InProgress} :: HasClaim(r.claims, p)
    {
      assert order[..i + 1] == order[..i] + [order[i]];
      GroupedIsMembers(r.gaps, groups, order[i]);
      if StatusSet(Grouped(groups, order[i])) == {InProgress} && order[i] !in index {
        errors := errors + [Finding(order[i], InProgressPackageHasNoActiveClaim)];
      }
    }
    assert order[..|order|] == order;
    assert ClaimedWhenInProgress(r) <==>
      forall p | p in order && Statuses(r.gaps, p) == {InProgress} :: HasClaim(r.claims, p) by {
      forall p | p in order
        ensures exists g :: g in r.gaps && g.package == p
      {
        assert groups[p][0] in groups[p];
      }
    }
  }

  // ---- Evidence tables --------------------------------------------------------------------

  method EmptyCells(t: TextRules, cells: seq<Cell>) returns (errors: Findings)
    ensures errors == [] <==> forall c | c in cells :: !(t.empty)(c)
  {
    errors := [];
    for i := 0 to |cells|
      invariant errors == [] <==> forall c | c in cells[..i] :: !(t.empty)(c)
    {
      assert cells[..i + 1] == cells[..i] + [cells[i]];
      if (t.empty)(cells[i]) { errors := errors + [Finding("", EvidenceCellIsEmpty)]; }
    }
    assert cells[..|cells|] == cells;
  }

  method CheckDevelopRow(t: TextRules, gaps: seq<Gap>, groups: map<Id, seq<Gap>>, row: DevelopRow)
    returns (errors: Findings)
    requires Groups(gaps, groups)
    ensures errors == [] <==> DevelopRowOk(t, gaps, row)
  {
    var key := DevelopKey(t, row);
    GroupedIsMembers(gaps, groups, key);
    var members := Grouped(groups, key);
    var cells := [row.package, row.gaps, row.feature, row.commit, row.verification];
    errors := EmptyCells(t, cells);
    assert (forall c | c in cells :: !(t.empty)(c)) <==>
      !(t.empty)(row.package) && !(t.empty)(row.gaps) && !(t.empty)(row.feature)
      && !(t.empty)(row.commit) && !(t.empty)(row.verification) by {
      assert cells[0] in cells && cells[1] in cells && cells[2] in cells && cells[3] in cells && cells[4] in cells;
    }
    if members == [] {
      errors := errors + [Finding(key, DevelopEvidenceNamesAnUnknownPackage)];
    } else if multiset(ListedGaps(t, row.gaps)) != multiset(GapIds(members)) {
      errors := errors + [Finding(key, DevelopEvidenceGapsDifferFromPackageGaps)];
    }
    var statuses := StatusSet(members);
    if statuses != {} && !(statuses <= DELIVERED) { errors := errors + [Finding(key, ProspectiveEvidence)]; }
    if !(t.prLink)(row.feature) { errors := errors + [Finding(key, NoFeaturePrLink)]; }
    if !(t.sha)(row.commit) { errors := errors + [Finding(key, NoMergeSha)]; }
    if !(t.verified)(row.verification) { errors := errors + [Finding(key, NoVerificationResult)]; }
  }

  method CheckDevelopEvidence(t: TextRules, r: Roadmap, groups: map<Id, seq<Gap>>, order: seq<Id>)
    returns (errors: Findings)
    requires Groups(r.gaps, groups) && forall p :: p in groups <==> p in order
    ensures errors == [] <==> DevelopEvidenceOk(t, r)
  {
    hide DevelopRowOk, NoDuplicates, Members, Statuses;
    var rows := r.developEvidence;
    var repeated := Duplicates(DevelopKeys(t, rows));
    errors := if repeated != {} then [Finding("", DuplicateDevelopTransitionEvidence)] else [];
    var known: set<Id> := {};
    for i := 0 to |rows|
      invariant forall p :: p in known <==> HasDevelopRow(t, rows[..i], p)
      invariant errors == [] <==>
        NoDuplicates(DevelopKeys(t, rows)) && forall row | row in rows[..i] :: DevelopRowOk(t, r.gaps, row)
    {
      assert rows[..i + 1] == rows[..i] + [rows[i]];
      known := known + {DevelopKey(t, rows[i])};
      var row := CheckDevelopRow(t, r.gaps, groups, rows[i]);
      errors := errors + row;
    }
    assert rows[..|rows|] == rows;
    ghost var before := errors;
    for i := 0 to |order|
      invariant errors == [] <==>
        before == [] && forall p | p in order[..i] && Statuses(r.gaps, p) <= DELIVERED :: HasDevelopRow(t, rows, p)
    {
      assert order[..i + 1] == order[..i] + [order[i]];
      GroupedIsMembers(r.gaps, groups, order[i]);
      var statuses := StatusSet(Grouped(groups, order[i]));
      if statuses <= DELIVERED && order[i] !in known {
        errors := errors + [Finding(order[i], DeliveredPackageLacksEvidence)];
      }
    }
    assert order[..|order|] == order;
    EveryPackage(r.gaps, groups, order);
  }

  lemma EveryPackage(gaps: seq<Gap>, groups: map<Id, seq<Gap>>, order: seq<Id>)
    requires Groups(gaps, groups) && forall p :: p in groups <==> p in order
    ensures forall p :: p in order <==> exists g :: g in gaps && g.package == p
  {
    forall p | p in order
      ensures exists g :: g in gaps && g.package == p
    {
      assert groups[p][0] in groups[p];
    }
  }

  method CheckMainRow(t: TextRules, index: map<Id, Gap>, row: MainRow) returns (errors: Findings)
    ensures errors == [] <==> MainRowOk(t, index, row)
  {
    var key := MainKey(t, row);
    var cells := [row.gap, row.feature, row.release, row.verification, row.migration, row.documentation];
    errors := EmptyCells(t, cells);
    assert (forall c | c in cells :: !(t.empty)(c)) <==>
      !(t.empty)(row.gap) && !(t.empty)(row.feature) && !(t.empty)(row.release)
      && !(t.empty)(row.verification) && !(t.empty)(row.migration) && !(t.empty)(row.documentation) by {
      assert cells[0] in cells && cells[1] in cells && cells[2] in cells;
      assert cells[3] in cells && cells[4] in cells && cells[5] in cells;
    }
    if key !in index {
      errors := errors + [Finding(key, MainEvidenceNamesAnUnknownGap)];
    } else if index[key].status != Done {
      errors := errors + [Finding(key, ProspectiveClosureEvidence)];
    }
    if !(t.prLink)(row.feature) && !(t.sha)(row.feature) { errors := errors + [Finding(key, NoFeaturePrOrSha)]; }
    if !(t.sha)(row.release) && !(t.releaseVersion)(row.release) { errors := errors + [Finding(key, NoRelease)]; }
    if !(t.verified)(row.verification) { errors := errors + [Finding(key, NoVerificationResult)]; }
    if !(t.meaningful)(row.migration) { errors := errors + [Finding(key, MigrationNotMeaningful)]; }
    if !(t.meaningful)(row.documentation) { errors := errors + [Finding(key, DocumentationNotMeaningful)]; }
  }

  method CheckMainEvidence(t: TextRules, r: Roadmap, index: map<Id, Gap>) returns (errors: Findings)
    requires index == IndexGaps(r.gaps)
    ensures errors == [] <==> MainEvidenceOk(t, r)
  {
    hide MainRowOk, NoDuplicates, IndexGaps;
    var rows := r.mainEvidence;
    var repeated := Duplicates(MainKeys(t, rows));
    errors := if repeated != {} then [Finding("", DuplicateMainClosureEvidence)] else [];
    var known: set<Id> := {};
    for i := 0 to |rows|
      invariant forall id :: id in known <==> HasMainRow(t, rows[..i], id)
      invariant errors == [] <==>
        NoDuplicates(MainKeys(t, rows)) && forall row | row in rows[..i] :: MainRowOk(t, index, row)
    {
      assert rows[..i + 1] == rows[..i] + [rows[i]];
      known := known + {MainKey(t, rows[i])};
      var row := CheckMainRow(t, index, rows[i]);
      errors := errors + row;
    }
    assert rows[..|rows|] == rows;
    ghost var before := errors;
    for i := 0 to |r.gaps|
      invariant errors == [] <==>
        before == [] && forall g | g in r.gaps[..i] && g.status == Done :: HasMainRow(t, rows, g.id)
    {
      assert r.gaps[..i + 1] == r.gaps[..i] + [r.gaps[i]];
      if r.gaps[i].status == Done && r.gaps[i].id !in known {
        errors := errors + [Finding(r.gaps[i].id, DoneGapLacksClosureEvidence)];
      }
    }
    assert r.gaps[..|r.gaps|] == r.gaps;
  }

  method CheckDecisionRow(t: TextRules, index: map<Id, Gap>, row: DecisionRow) returns (errors: Findings)
    ensures errors == [] <==> DecisionRowOk(t, index, row)
  {
    var key, kind, references := DecisionKey(t, row), DecisionKind(t, row), DecisionReferences(t, row);
    var cells := [row.gap, row.decision, row.reference, row.rationale, row.evidence, row.reaudit];
    errors := EmptyCells(t, cells);
    assert (forall c | c in cells :: !(t.empty)(c)) <==>
      !(t.empty)(row.gap) && !(t.empty)(row.decision) && !(t.empty)(row.reference)
      && !(t.empty)(row.rationale) && !(t.empty)(row.evidence) && !(t.empty)(row.reaudit) by {
      assert cells[0] in cells && cells[1] in cells && cells[2] in cells;
      assert cells[3] in cells && cells[4] in cells && cells[5] in cells;
    }
    if key !in index {
      errors := errors + [Finding(key, DecisionEvidenceNamesAnUnknownGap)];
    } else if kind !in DECISION_KINDS {
      errors := errors + [Finding(key, InvalidDecision)];
    } else if kind in {"REJECTED", "SUPERSEDED"} && StatusText(index[key].status) != kind {
      errors := errors + [Finding(key, DecisionDoesNotMatchGapStatus)];
    }
    match references {
      case None => errors := errors + [Finding(key, UnreadableReferences)];
      case Some(ids) =>
        if kind in {"SUPERSEDED"} + DEPENDENCY_DECISIONS && ids == [] {
          errors := errors + [Finding(key, DecisionMustNameGaps)];
        }
        var unknown := set id | id in ids && id !in index;
        assert unknown == {} <==> forall id | id in ids :: id in index by {
          assert forall id | id in ids && id !in index :: id in unknown;
        }
        if unknown != {} { errors := errors + [Finding(key, DecisionNamesUnknownGaps)]; }
        if key in ids { errors := errors + [Finding(key, DecisionCannotReferenceItself)]; }
    }
    if |(t.clean)(row.rationale)| < RATIONALE_MINIMUM { errors := errors + [Finding(key, RationaleTooShort)]; }
    if !(t.prLink)(row.evidence) && !(t.sha)(row.evidence) { errors := errors + [Finding(key, NoPrLinkOrSha)]; }
    if !(t.verified)(row.reaudit) { errors := errors + [Finding(key, NoReAuditResult)]; }
  }

  method CheckDecisionEvidence(t: TextRules, r: Roadmap, index: map<Id, Gap>) returns (errors: Findings)
    requires index == IndexGaps(r.gaps)
    ensures errors == [] <==> DecisionEvidenceOk(t, r)
  {
    hide DecisionRowOk, NoDuplicates, IndexGaps;
    var rows := r.decisionEvidence;
    var repeated := Duplicates(rows);
    errors := if repeated != {} then [Finding("", DuplicateDecisionEvidenceRows)] else [];
    for i := 0 to |rows|
      invariant errors == [] <==>
        NoDuplicates(rows) && forall row | row in rows[..i] :: DecisionRowOk(t, index, row)
    {
      assert rows[..i + 1] == rows[..i] + [rows[i]];
      var row := CheckDecisionRow(t, index, rows[i]);
      errors := errors + row;
    }
    assert rows[..|rows|] == rows;
    ghost var before := errors;
    for i := 0 to |r.gaps|
      invariant errors == [] <==>
        before == [] && forall g | g in r.gaps[..i] && g.status in DECISION_STATUSES :: HasDecisionRow(t, rows, g)
    {
      var g := r.gaps[i];
      assert r.gaps[..i + 1] == r.gaps[..i] + [g];
      if g.status in DECISION_STATUSES && !HasDecisionRow(t, rows, g) {
        errors := errors + [Finding(g.id, DecidedGapLacksDecisionEvidence)];
      }
    }
    assert r.gaps[..|r.gaps|] == r.gaps;
  }

  method CheckBlockerRow(t: TextRules, gaps: seq<Gap>, groups: map<Id, seq<Gap>>, row: BlockerRow)
    returns (errors: Findings)
    requires Groups(gaps, groups)
    ensures errors == [] <==> BlockerRowOk(t, gaps, row)
  {
    var key := BlockerKey(t, row);
    GroupedIsMembers(gaps, groups, key);
    var members := Grouped(groups, key);
    var cells := [row.package, row.gaps, row.transition, row.reason, row.reference, row.reaudit];
    errors := EmptyCells(t, cells);
    assert (forall c | c in cells :: !(t.empty)(c)) <==>
      !(t.empty)(row.package) && !(t.empty)(row.gaps) && !(t.empty)(row.transition)
      && !(t.empty)(row.reason) && !(t.empty)(row.reference) && !(t.empty)(row.reaudit) by {
      assert cells[0] in cells && cells[1] in cells && cells[2] in cells;
      assert cells[3] in cells && cells[4] in cells && cells[5] in cells;
    }
    if members == [] {
      errors := errors + [Finding(key, BlockerEvidenceNamesAnUnknownPackage)];
    } else if multiset(ListedGaps(t, row.gaps)) != multiset(GapIds(members)) {
      errors := errors + [Finding(key, BlockerEvidenceGapsDifferFromPackageGaps)];
    }
    match Transition(t, row.transition) {
      case None => errors := errors + [Finding(key, InvalidTransition)];
      case Some((source, target)) =>
        if (source == Blocked) == (target == Blocked) {
          errors := errors + [Finding(key, TransitionMustEnterOrLeaveBlocked)];
        } else if target !in AllowedTargets(source) {
          errors := errors + [Finding(key, IllegalTransition)];
        }
    }
    if !(t.durableReference)(row.reference) { errors := errors + [Finding(key, NoDurableReference)]; }
    if !(t.verified)(row.reaudit) { errors := errors + [Finding(key, NoReAuditResult)]; }
  }

  /** The valid transitions of one package's blocker rows. */
  method ValidTransitions(t: TextRules, rows: seq<BlockerRow>, package: Id) returns (moves: seq<(Status, Status)>)
    ensures moves == PackageTransitions(t, rows, package)
  {
    moves := [];
    for i := 0 to |rows|
      invariant moves == PackageTransitions(t, rows[..i], package)
    {
      assert rows[..i + 1][..i] == rows[..i];
      if BlockerKey(t, rows[i]) == package {
        match Transition(t, rows[i].transition) {
          case Some(move) => moves := moves + [move];
          case None =>
        }
      }
    }
    assert rows[..|rows|] == rows;
  }

  method CheckBlockerTrail(t: TextRules, r: Roadmap, groups: map<Id, seq<Gap>>, package: Id) returns (errors: Findings)
    requires Groups(r.gaps, groups)
    ensures errors == [] <==> BlockerTrailOk(t, r, package)
  {
    GroupedIsMembers(r.gaps, groups, package);
    hide Members, Statuses, PackageTransitions;
    var blocked := StatusSet(Grouped(groups, package)) == {Blocked};
    errors := [];
    if blocked && !HasBlockerRow(t, r.blockerEvidence, package) {
      errors := errors + [Finding(package, BlockedPackageLacksBlockerEvidence)];
    }
    var moves := ValidTransitions(t, r.blockerEvidence, package);
    if moves != [] {
      var target := moves[|moves| - 1].1;
      if blocked && target != Blocked { errors := errors + [Finding(package, LatestRowDoesNotEnterBlocked)]; }
      if !blocked && target == Blocked { errors := errors + [Finding(package, RecoveryLacksAnExitRow)]; }
    }
  }

  method CheckBlockerEvidence(t: TextRules, r: Roadmap, groups: map<Id, seq<Gap>>, order: seq<Id>)
    returns (errors: Findings)
    requires Groups(r.gaps, groups) && forall p :: p in groups <==> p in order
    ensures errors == [] <==> BlockerEvidenceOk(t, r)
  {
    hide BlockerRowOk, NoDuplicates, Members, BlockerTrailOk;
    var rows := r.blockerEvidence;
    var repeated := Duplicates(rows);
    errors := if repeated != {} then [Finding("", DuplicateBlockerEvidenceRows)] else [];
    for i := 0 to |rows|
      invariant errors == [] <==> NoDuplicates(rows) && forall row | row in rows[..i] :: BlockerRowOk(t, r.gaps, row)
    {
      assert rows[..i + 1] == rows[..i] + [rows[i]];
      var row := CheckBlockerRow(t, r.gaps, groups, rows[i]);
      errors := errors + row;
    }
    assert rows[..|rows|] == rows;
    ghost var before := errors;
    for i := 0 to |order|
      invariant errors == [] <==> before == [] && forall p | p in order[..i] :: BlockerTrailOk(t, r, p)
    {
      assert order[..i + 1] == order[..i] + [order[i]];
      var trail := CheckBlockerTrail(t, r, groups, order[i]);
      errors := errors + trail;
    }
    assert order[..|order|] == order;
    EveryPackage(r.gaps, groups, order);
  }

  /** `validate_structure`, with the evidence checks it ends in. */
  method ValidateStructure(t: TextRules, r: Roadmap) returns (errors: Findings)
    ensures errors == [] <==> StructureOk(t, r)
  {
    hide GapLedgerOk, ClaimsOk, DevelopEvidenceOk, MainEvidenceOk, DecisionEvidenceOk, BlockerEvidenceOk;
    hide IndexGaps, Acyclic;
    var index := IndexRows(r.gaps);
    var groups, order := GroupByPackage(r.gaps);
    assert Groups(r.gaps, groups);
    var ledger := CheckGapLedger(t, r, index, groups, order);
    var roots := GapIds(r.gaps);
    RootsAreKnown(r.gaps);
    var cycle := FindDependencyCycle(index, roots);
    var claims := CheckClaims(t, r, groups, order);
    var develop := CheckDevelopEvidence(t, r, groups, order);
    var main := CheckMainEvidence(t, r, index);
    var decisions := CheckDecisionEvidence(t, r, index);
    var blockers := CheckBlockerEvidence(t, r, groups, order);
    errors := ledger + (if cycle.Some? then [Finding("", DependencyCycle)] else [])
              + claims + develop + main + decisions + blockers;
    assert Unfolded(r);
  }

  lemma RootsAreKnown(gaps: seq<Gap>)
    ensures forall id :: id in GapIds(gaps) <==> id in IndexGaps(gaps)
  {
    IndexHolds(gaps);
    forall id
      ensures id in GapIds(gaps) <==> id in IndexGaps(gaps)
    {
      if id in GapIds(gaps) {
        var i :| 0 <= i < |gaps| && GapIds(gaps)[i] == id;
        assert gaps[i] in gaps;
      }
      if id in IndexGaps(gaps) {
        var i :| 0 <= i < |gaps| && gaps[i] == IndexGaps(gaps)[id];
        assert GapIds(gaps)[i] == id;
      }
    }
  }
}
