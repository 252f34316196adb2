/** The life of one GAP on develop: which moves an accepted step can make, and what every
    run of such steps has behind it when a GAP is delivered, decided or rewired. */
module RoadmapLifecycle {
  import opened Prelude
  import opened RoadmapModel
  import opened RoadmapRules
  import opened RoadmapDelivery

  // ---- One step ---------------------------------------------------------------------

  /** A step on develop is checked row by row, whatever trusted main it was given. */
  lemma DevelopStep(t: TextRules, base: Roadmap, current: Roadmap) returns (trustedMain: Option<Roadmap>)
    requires BranchStep(t, Develop, base, current)
    ensures DocumentOk(t, Some(base)) && DocumentOk(t, Some(current)) && Extends(base, current)
    ensures TransitionsOk(t, base, current, trustedMain, false)
  {
    StepExtends(t, Develop, base, current);
    hide StructureOk, TransitionsOk, Extends;
    var event, main, trustedDevelop :| Accepted(t, Develop, event, Some(base), current, main, trustedDevelop);
    trustedMain := main;
  }

  lemma StepRow(t: TextRules, base: Roadmap, current: Roadmap, i: nat) returns (trustedMain: Option<Roadmap>)
    requires BranchStep(t, Develop, base, current) && i < |base.gaps|
    ensures i < |current.gaps| && base.gaps[i].id == current.gaps[i].id
    ensures KeptGapOk(t, base, current, trustedMain, false, base.gaps[i], current.gaps[i])
  {
    trustedMain := DevelopStep(t, base, current);
    UniqueIds(t, base);
    UniqueIds(t, current);
    assert Unfolded(current);
    SamePosition(base, current, i);
    hide KeptGapOk, IndexGaps, StructureOk;
  }

  /** Where a GAP on develop can come from. */
  predicate CanMove(before: Status, after: Status) {
    match after
    case Open => before in {Ready, InProgress, Blocked}
    case Ready => before in {Open, InProgress, Blocked}
    case InProgress => before == Ready
    case InDevelop => before == InProgress
    case Done => before == InDevelop
    case Blocked => before in {Open, Ready, InProgress}
    case Rejected => before in {Open, Ready, InProgress, Blocked}
    case Superseded => before in {Open, Ready, InProgress, Blocked}
    case Unlisted(_) => false
  }

  /** No accepted step on develop moves a GAP in any other way. */
  lemma StepMoves(t: TextRules, base: Roadmap, current: Roadmap, i: nat)
    requires BranchStep(t, Develop, base, current) && i < |base.gaps|
    ensures i < |current.gaps|
    ensures base.gaps[i].status == current.gaps[i].status || CanMove(base.gaps[i].status, current.gaps[i].status)
  {
    var trustedMain := StepRow(t, base, current, i);
    if base.gaps[i].status in DELIVERED {
      DeliveredIsAbsorbing(t, Develop, base, current, i);
    }
    hide BranchStep, SameRegistration, EdgesAccounted;
  }

  // ---- The path to delivery ------------------------------------------------------------

  /** The row of a GAP stays at its place, under its id and package, through a run. */
  lemma RowStays(t: TextRules, target: Branch, docs: seq<Roadmap>, i: nat, k: nat)
    requires BranchRun(t, target, docs) && k < |docs| && i < |docs[0].gaps|
    ensures i < |docs[k].gaps| && DocumentOk(t, Some(docs[k]))
    ensures docs[k].gaps[i].id == docs[0].gaps[i].id && docs[k].gaps[i].package == docs[0].gaps[i].package
  {
    RunExtends(t, target, docs, 0, k);
    hide StructureOk, BranchRun, EvidenceAppended;
    assert GapIds(docs[0].gaps)[i] == GapIds(docs[k].gaps)[i];
    assert PromotedGapOk(docs[0].gaps[i], docs[k].gaps[i]);
  }

  predicate StatusIs(r: Roadmap, i: nat, s: Status) { i < |r.gaps| && r.gaps[i].status == s }

  ghost predicate ClaimedBy(r: Roadmap, package: Id, c: Claim) {
    c in r.claims && c.package == package && forall d | d in r.claims && d.package == package :: d == c
  }

  lemma OneClaim(t: TextRules, r: Roadmap, c: Claim)
    requires StructureOk(t, r) && c in r.claims
    ensures ClaimedBy(r, c.package, c)
  {
    ClaimPackagesDiffer(t, r);
    hide StructureOk, NoDuplicates;
    forall d | d in r.claims && d.package == c.package
      ensures d == c
    {
      var j :| 0 <= j < |r.claims| && r.claims[j] == c;
      var k :| 0 <= k < |r.claims| && r.claims[k] == d;
      assert ClaimPackages(r.claims)[j] == ClaimPackages(r.claims)[k];
      SamePlace(ClaimPackages(r.claims), j, k);
    }
  }

  lemma ClaimPackagesDiffer(t: TextRules, r: Roadmap)
    requires StructureOk(t, r)
    ensures NoDuplicates(ClaimPackages(r.claims))
  {
    assert ClaimsOk(t, r) by {
      assert Unfolded(r);
    }
  }

  lemma SamePlace(ids: seq<Id>, j: nat, k: nat)
    requires NoDuplicates(ids) && j < |ids| && k < |ids| && ids[j] == ids[k]
    ensures j == k
  {
  }

  lemma StatusOfPackage(t: TextRules, r: Roadmap, g: Gap)
    requires StructureOk(t, r) && g in r.gaps
    ensures Statuses(r.gaps, g.package) == {g.status}
  {
    forall s | s in Statuses(r.gaps, g.package)
      ensures s == g.status
    {
      var h :| h in r.gaps && h.package == g.package && h.status == s;
      SamePackageSameStatus(t, r, g, h);
    }
  }

  /** Work in progress is claimed, once. */
  lemma InProgressIsClaimed(t: TextRules, r: Roadmap, i: nat) returns (c: Claim)
    requires StructureOk(t, r) && StatusIs(r, i, InProgress)
    ensures ClaimedBy(r, r.gaps[i].package, c)
  {
    var g := r.gaps[i];
    StatusOfPackage(t, r, g);
    assert ClaimedWhenInProgress(r) by {
      assert Unfolded(r);
    }
    c :| c in r.claims && c.package == g.package;
    OneClaim(t, r, c);
  }

  /** And the claim does not change while the work goes on. */
  lemma ClaimStays(t: TextRules, base: Roadmap, current: Roadmap, i: nat, c: Claim)
    requires BranchStep(t, Develop, base, current)
    requires StatusIs(base, i, InProgress) && StatusIs(current, i, InProgress)
    requires base.gaps[i].package == current.gaps[i].package && ClaimedBy(current, current.gaps[i].package, c)
    ensures ClaimedBy(base, base.gaps[i].package, c)
  {
    var trustedMain := DevelopStep(t, base, current);
    var package := base.gaps[i].package;
    StatusOfPackage(t, base, base.gaps[i]);
    StatusOfPackage(t, current, current.gaps[i]);
    assert ClaimsKeptOk(base, current) by {
      assert Unfolded(current);
    }
    var d := InProgressIsClaimed(t, base, i);
    hide StructureOk, TransitionsOk, Statuses;
    assert HasClaim(base.claims, package) && HasClaim(current.claims, package);
    assert IndexClaims(base.claims)[package] == IndexClaims(current.claims)[package];
  }

  /** The step that delivers a GAP starts from claimed work, ends the claim and adds the
      develop row of the package. */
  lemma DeliveringStep(t: TextRules, base: Roadmap, current: Roadmap, i: nat)
    requires BranchStep(t, Develop, base, current) && i < |base.gaps| && i < |current.gaps|
    requires base.gaps[i].status !in DELIVERED && current.gaps[i].status in DELIVERED
    ensures base.gaps[i].status == InProgress && current.gaps[i].status == InDevelop
    ensures !HasClaim(current.claims, current.gaps[i].package)
    ensures exists row :: row in current.developEvidence && row !in base.developEvidence
                          && DevelopKey(t, row) == current.gaps[i].package
  {
    StepMoves(t, base, current, i);
    var trustedMain := StepRow(t, base, current, i);
    hide BranchStep, SameRegistration, EdgesAccounted;
  }

  /** In every run of develop in which an OPEN GAP gets delivered, it was READY; from the next
      document on it was IN_PROGRESS, all the time under one and the same claim; the step that
      ended this made it IN_DEVELOP, dropped the claim and brought the develop row; and it has
      been delivered ever since. */
  lemma PathToDelivery(t: TextRules, docs: seq<Roadmap>, i: nat) returns (ready: nat, last: nat, claim: Claim)
    requires BranchRun(t, Develop, docs) && StatusIs(docs[0], i, Open)
    requires i < |docs[|docs| - 1].gaps| && docs[|docs| - 1].gaps[i].status in DELIVERED
    ensures ready < last && last + 1 < |docs|
    ensures StatusIs(docs[ready], i, Ready)
    ensures forall k | ready < k <= last ::
      StatusIs(docs[k], i, InProgress) && ClaimedBy(docs[k], docs[0].gaps[i].package, claim)
    ensures StatusIs(docs[last + 1], i, InDevelop) && !HasClaim(docs[last + 1].claims, docs[0].gaps[i].package)
    ensures exists row :: row in docs[last + 1].developEvidence && row !in docs[last].developEvidence
                          && DevelopKey(t, row) == docs[0].gaps[i].package
    ensures forall k | last < k < |docs| :: i < |docs[k].gaps| && docs[k].gaps[i].status in DELIVERED
  {
    hide StructureOk, TransitionsOk, BranchStep, ClaimedBy, HasClaim;
    last := LastUndelivered(t, docs, i);
    RowStays(t, Develop, docs, i, last);
    RowStays(t, Develop, docs, i, last + 1);
    DeliveringStep(t, docs[last], docs[last + 1], i);
    claim := InProgressIsClaimed(t, docs[last], i);
    ready := last - 1;
    StartOfWork(t, docs, i, last - 1);
    while docs[ready].gaps[i].status == InProgress
      invariant ready < last && i < |docs[ready].gaps| && docs[ready].gaps[i].status in {Ready, InProgress}
      invariant forall k | ready < k <= last ::
        StatusIs(docs[k], i, InProgress) && ClaimedBy(docs[k], docs[0].gaps[i].package, claim)
      decreases ready
    {
      RowStays(t, Develop, docs, i, ready);
      RowStays(t, Develop, docs, i, ready + 1);
      ClaimStays(t, docs[ready], docs[ready + 1], i, claim);
      StartOfWork(t, docs, i, ready - 1);
      ready := ready - 1;
    }
  }

  lemma StartOfWork(t: TextRules, docs: seq<Roadmap>, i: nat, k: int)
    requires BranchRun(t, Develop, docs) && StatusIs(docs[0], i, Open) && 0 <= k + 1 < |docs|
    requires StatusIs(docs[k + 1], i, InProgress)
    ensures k >= 0 && i < |docs[k].gaps| && docs[k].gaps[i].status in {Ready, InProgress}
  {
    hide StructureOk, TransitionsOk;
    if k >= 0 {
      RowStays(t, Develop, docs, i, k);
      assert BranchStep(t, Develop, docs[k], docs[k + 1]);
      hide BranchStep;
      StepMoves(t, docs[k], docs[k + 1], i);
    }
  }

  lemma LastUndelivered(t: TextRules, docs: seq<Roadmap>, i: nat) returns (last: nat)
    requires BranchRun(t, Develop, docs) && StatusIs(docs[0], i, Open)
    requires i < |docs[|docs| - 1].gaps| && docs[|docs| - 1].gaps[i].status in DELIVERED
    ensures last + 1 < |docs| && BranchStep(t, Develop, docs[last], docs[last + 1])
    ensures i < |docs[last].gaps| && docs[last].gaps[i].status !in DELIVERED
    ensures forall k | last < k < |docs| :: i < |docs[k].gaps| && docs[k].gaps[i].status in DELIVERED
  {
    hide StructureOk, TransitionsOk;
    last := |docs| - 1;
    while docs[last].gaps[i].status in DELIVERED
      invariant last < |docs| && i < |docs[last].gaps|
      invariant forall k | last < k < |docs| :: i < |docs[k].gaps| && docs[k].gaps[i].status in DELIVERED
      invariant last == |docs| - 1 ==> docs[last].gaps[i].status in DELIVERED
      decreases last
    {
      RowStays(t, Develop, docs, i, last - 1);
      last := last - 1;
    }
    assert BranchStep(t, Develop, docs[last], docs[last + 1]);
    hide BranchStep;
  }

  // ---- From the beginning -----------------------------------------------------------------------

  /** A row that a step adds is OPEN, in a package no row had before. */
  lemma BornOpen(t: TextRules, base: Roadmap, current: Roadmap, i: nat)
    requires BranchStep(t, Develop, base, current) && |base.gaps| <= i < |current.gaps|
    ensures current.gaps[i].status == Open
    ensures forall g | g in base.gaps :: g.package != current.gaps[i].package && g.id != current.gaps[i].id
  {
    var trustedMain := DevelopStep(t, base, current);
    assert GapChangesOk(t, base, current, trustedMain, false) by {
      assert Unfolded(current);
    }
    UniqueIds(t, base);
    UniqueIds(t, current);
    IndexedAt(current, i);
    IndexHolds(base.gaps);
    hide BranchStep, StructureOk, TransitionsOk, IndexGaps;
    forall k | 0 <= k < |base.gaps|
      ensures base.gaps[k].id != current.gaps[i].id
    {
      assert GapIds(base.gaps)[k] == GapIds(current.gaps)[k] != GapIds(current.gaps)[i];
    }
    assert NewGapOk(base, current.gaps[i]);
    forall g | g in base.gaps
      ensures g.package in base.packageHeadings
    {
      HeadingOf(t, base, g);
    }
  }

  lemma HeadingOf(t: TextRules, r: Roadmap, g: Gap)
    requires DocumentOk(t, Some(r)) && g in r.gaps
    ensures g.package in r.packageHeadings
  {
    assert Unfolded(r);
    assert SelectionOk(r.packages, g);
    var p :| p in r.packages && p.id == g.package;
  }

  lemma RunFrom(t: TextRules, docs: seq<Roadmap>, b: nat)
    requires BranchRun(t, Develop, docs) && b < |docs|
    ensures BranchRun(t, Develop, docs[b..])
  {
    RunExtends(t, Develop, docs, b, b);
    hide BranchStep, StructureOk;
    var rest := docs[b..];
    forall i, j | 0 <= i < j < |rest| && j == i + 1
      ensures BranchStep(t, Develop, rest[i], rest[j])
    {
      assert BranchStep(t, Develop, docs[b + i], docs[b + j]);
    }
  }

  /** Every GAP that a run brings in and delivers has that path, from the document in which it
      first appears, OPEN. */
  lemma PathFromBirth(t: TextRules, docs: seq<Roadmap>, i: nat) returns (born: nat, ready: nat, last: nat, claim: Claim)
    requires BranchRun(t, Develop, docs) && |docs[0].gaps| <= i < |docs[|docs| - 1].gaps|
    requires docs[|docs| - 1].gaps[i].status in DELIVERED
    ensures 0 < born < ready < last && last + 1 < |docs|
    ensures forall k | 0 <= k < born :: |docs[k].gaps| <= i
    ensures StatusIs(docs[born], i, Open) && StatusIs(docs[ready], i, Ready)
    ensures forall k | ready < k <= last ::
      StatusIs(docs[k], i, InProgress) && ClaimedBy(docs[k], docs[born].gaps[i].package, claim)
    ensures StatusIs(docs[last + 1], i, InDevelop) && !HasClaim(docs[last + 1].claims, docs[born].gaps[i].package)
    ensures forall k | last < k < |docs| :: i < |docs[k].gaps| && docs[k].gaps[i].status in DELIVERED
  {
    hide StructureOk, TransitionsOk, BranchStep, ClaimedBy, HasClaim;
    born := 1;
    while |docs[born].gaps| <= i
      invariant 0 < born < |docs|
      invariant forall k | 0 <= k < born :: |docs[k].gaps| <= i
      decreases |docs| - born
    {
      born := born + 1;
    }
    assert BranchStep(t, Develop, docs[born - 1], docs[born]);
    BornOpen(t, docs[born - 1], docs[born], i);
    RunFrom(t, docs, born);
    var rest := docs[born..];
    ready, last, claim := PathToDelivery(t, rest, i);
    assert ready > 0;
    forall k | born + ready < k <= born + last
      ensures StatusIs(docs[k], i, InProgress) && ClaimedBy(docs[k], docs[born].gaps[i].package, claim)
    {
      assert docs[k] == rest[k - born];
    }
    forall k | born + last < k < |docs|
      ensures i < |docs[k].gaps| && docs[k].gaps[i].status in DELIVERED
    {
      assert docs[k] == rest[k - born];
    }
    ready, last := born + ready, born + last;
  }

  // ---- One valid ledger ----------------------------------------------------------------------

  predicate BelongsTo(gaps: seq<Gap>, id: Id, package: Id) {
    exists g :: g in gaps && g.id == id && g.package == package
  }

  lemma MemberIds(gaps: seq<Gap>, package: Id, id: Id)
    ensures id in GapIds(Members(gaps, package)) <==> BelongsTo(gaps, id, package)
  {
    var members := Members(gaps, package);
    if id in GapIds(members) {
      var i :| 0 <= i < |members| && GapIds(members)[i] == id;
      assert members[i] in members;
    }
    if g :| g in gaps && g.id == id && g.package == package {
      var i :| 0 <= i < |members| && members[i] == g;
      assert GapIds(members)[i] == id;
    }
  }

  lemma SameMultisetSameMembers(a: seq<Id>, b: seq<Id>, id: Id)
    requires multiset(a) == multiset(b)
    ensures id in a <==> id in b
  {
    assert id in a <==> id in multiset(a);
    assert id in b <==> id in multiset(b);
  }

  lemma ClaimNamesPackage(t: TextRules, gaps: seq<Gap>, c: Claim)
    requires ClaimOk(t, gaps, c)
    ensures exists g :: g in gaps && g.package == c.package && g.status == InProgress
    ensures forall id :: id in c.gaps <==> BelongsTo(gaps, id, c.package)
  {
    assert InProgress in Statuses(gaps, c.package);
    var ids := GapIds(Members(gaps, c.package));
    hide Members, BelongsTo;
    forall id
      ensures id in c.gaps <==> BelongsTo(gaps, id, c.package)
    {
      SameMultisetSameMembers(c.gaps, ids, id);
      MemberIds(gaps, c.package, id);
    }
  }

  lemma ClaimChecked(t: TextRules, r: Roadmap, c: Claim)
    requires StructureOk(t, r) && c in r.claims
    ensures ClaimOk(t, r.gaps, c)
  {
    assert ClaimsOk(t, r) by {
      assert Unfolded(r);
    }
  }

  /** Claims and work in progress are the same packages, and each claim names exactly the GAPs
      of its package. */
  lemma ClaimsMatchWork(t: TextRules, r: Roadmap)
    requires StructureOk(t, r)
    ensures forall p :: HasClaim(r.claims, p) <==> exists g :: g in r.gaps && g.package == p && g.status == InProgress
    ensures forall c, id | c in r.claims :: id in c.gaps <==> BelongsTo(r.gaps, id, c.package)
    ensures forall c, d | c in r.claims && d in r.claims && c.package == d.package :: c == d
  {
    hide StructureOk, BelongsTo, ClaimOk;
    forall c | c in r.claims
      ensures exists g :: g in r.gaps && g.package == c.package && g.status == InProgress
      ensures forall id :: id in c.gaps <==> BelongsTo(r.gaps, id, c.package)
      ensures ClaimedBy(r, c.package, c)
    {
      ClaimChecked(t, r, c);
      ClaimNamesPackage(t, r.gaps, c);
      OneClaim(t, r, c);
    }
    forall g | g in r.gaps && g.status == InProgress
      ensures HasClaim(r.claims, g.package)
    {
      var i :| 0 <= i < |r.gaps| && r.gaps[i] == g;
      var c := InProgressIsClaimed(t, r, i);
    }
  }

  // Each status is backed by its evidence.

  ghost predicate WorkEvidence(t: TextRules, r: Roadmap, g: Gap) {
    exists c :: c in r.claims && c.package == g.package
      && (t.ownerFormat)(c.owner) && (t.branchFormat)(c.branch) && (t.prLink)(c.evidence) && (t.utcTimestamp)(c.claimedAt)
  }

  ghost predicate DeliveryEvidence(t: TextRules, r: Roadmap, g: Gap) {
    exists row :: row in r.developEvidence && (t.clean)(row.package) == g.package
      && (t.prLink)(row.feature) && (t.sha)(row.commit) && (t.verified)(row.verification)
      && (forall id :: id in ListedGaps(t, row.gaps) <==> BelongsTo(r.gaps, id, g.package))
  }

  ghost predicate ClosureEvidence(t: TextRules, r: Roadmap, g: Gap) {
    exists row :: row in r.mainEvidence && (t.clean)(row.gap) == g.id
      && ((t.prLink)(row.feature) || (t.sha)(row.feature))
      && ((t.sha)(row.release) || (t.releaseVersion)(row.release))
      && (t.verified)(row.verification) && (t.meaningful)(row.migration) && (t.meaningful)(row.documentation)
  }

  /** The references of a supersession are other known GAPs, and there is one. */
  ghost predicate DecisionEvidence(t: TextRules, r: Roadmap, g: Gap) {
    exists row :: row in r.decisionEvidence && (t.clean)(row.gap) == g.id
      && (t.clean)(row.decision) == StatusText(g.status)
      && |(t.clean)(row.rationale)| >= 12
      && ((t.prLink)(row.evidence) || (t.sha)(row.evidence)) && (t.verified)(row.reaudit)
      && (g.status == Superseded ==>
            (t.gapList)(row.reference).Some? && (t.gapList)(row.reference).value != []
            && forall id | id in (t.gapList)(row.reference).value :: id in GapIds(r.gaps) && id != g.id)
  }

  ghost predicate BlockerEvidence(t: TextRules, r: Roadmap, g: Gap) {
    exists row :: row in r.blockerEvidence && (t.clean)(row.package) == g.package
      && (t.durableReference)(row.reference) && (t.verified)(row.reaudit)
      && Transition(t, row.transition).Some? && Transition(t, row.transition).value.1 == Blocked
  }

  /** In a valid ledger every GAP in progress is claimed, every delivered one has its feature,
      commit and verification, every DONE one its release, migration and documentation, every
      decided one its rationale, and every blocked one its reference. */
  lemma StatusIsEvidenced(t: TextRules, r: Roadmap, g: Gap)
    requires StructureOk(t, r) && g in r.gaps
    ensures g.status == InProgress ==> WorkEvidence(t, r, g)
    ensures g.status in {InDevelop, Done} ==> DeliveryEvidence(t, r, g)
    ensures g.status == Done ==> ClosureEvidence(t, r, g)
    ensures g.status in {Rejected, Superseded} ==> DecisionEvidence(t, r, g)
    ensures g.status == Blocked ==> BlockerEvidence(t, r, g)
  {
    hide StructureOk;
    match g.status {
      case InProgress => WorkIsEvidenced(t, r, g);
      case InDevelop => DeliveryIsEvidenced(t, r, g);
      case Done => DeliveryIsEvidenced(t, r, g); ClosureIsEvidenced(t, r, g);
      case Rejected => DecisionIsEvidenced(t, r, g);
      case Superseded => DecisionIsEvidenced(t, r, g);
      case Blocked => BlockIsEvidenced(t, r, g);
      case _ =>
    }
    hide WorkEvidence, DeliveryEvidence, ClosureEvidence, DecisionEvidence, BlockerEvidence;
  }

  lemma WorkIsEvidenced(t: TextRules, r: Roadmap, g: Gap)
    requires StructureOk(t, r) && g in r.gaps && g.status == InProgress
    ensures WorkEvidence(t, r, g)
  {
    var i :| 0 <= i < |r.gaps| && r.gaps[i] == g;
    var c := InProgressIsClaimed(t, r, i);
    ClaimChecked(t, r, c);
    hide StructureOk;
  }

  lemma DeliveryIsEvidenced(t: TextRules, r: Roadmap, g: Gap)
    requires StructureOk(t, r) && g in r.gaps && g.status in DELIVERED
    ensures DeliveryEvidence(t, r, g)
  {
    DeliveredHasRow(t, r, g);
    var row :| row in r.developEvidence && DevelopKey(t, row) == g.package;
    assert DevelopRowOk(t, r.gaps, row) by {
      assert Unfolded(r);
    }
    hide StructureOk, Members, BelongsTo, Statuses;
    var ids := GapIds(Members(r.gaps, g.package));
    forall id
      ensures id in ListedGaps(t, row.gaps) <==> BelongsTo(r.gaps, id, g.package)
    {
      SameMultisetSameMembers(ListedGaps(t, row.gaps), ids, id);
      MemberIds(r.gaps, g.package, id);
    }
  }

  lemma ClosureIsEvidenced(t: TextRules, r: Roadmap, g: Gap)
    requires StructureOk(t, r) && g in r.gaps && g.status == Done
    ensures ClosureEvidence(t, r, g)
  {
    assert MainEvidenceOk(t, r) by {
      assert Unfolded(r);
    }
    assert HasMainRow(t, r.mainEvidence, g.id);
    var row :| row in r.mainEvidence && MainKey(t, row) == g.id;
    assert MainRowOk(t, IndexGaps(r.gaps), row);
    hide StructureOk, IndexGaps, MainEvidenceOk;
  }

  lemma DecisionIsEvidenced(t: TextRules, r: Roadmap, g: Gap)
    requires StructureOk(t, r) && g in r.gaps && g.status in {Rejected, Superseded}
    ensures DecisionEvidence(t, r, g)
  {
    assert DecisionEvidenceOk(t, r) by {
      assert Unfolded(r);
    }
    assert HasDecisionRow(t, r.decisionEvidence, g);
    var row :| row in r.decisionEvidence && DecisionKey(t, row) == g.id && DecisionKind(t, row) == StatusText(g.status);
    assert DecisionRowOk(t, IndexGaps(r.gaps), row);
    IndexedIds(r.gaps);
    hide StructureOk, IndexGaps, GapIds, DecisionEvidenceOk;
  }

  lemma IndexedIds(gaps: seq<Gap>)
    ensures forall id | id in IndexGaps(gaps) :: id in GapIds(gaps)
  {
    IndexHolds(gaps);
    forall id | id in IndexGaps(gaps)
      ensures id in GapIds(gaps)
    {
      var i :| 0 <= i < |gaps| && gaps[i] == IndexGaps(gaps)[id];
      assert GapIds(gaps)[i] == id;
    }
  }

  lemma BlockIsEvidenced(t: TextRules, r: Roadmap, g: Gap)
    requires StructureOk(t, r) && g in r.gaps && g.status == Blocked
    ensures BlockerEvidence(t, r, g)
  {
    assert BlockerEvidenceOk(t, r) by {
      assert Unfolded(r);
    }
    StatusOfPackage(t, r, g);
    assert BlockerTrailOk(t, r, g.package);
    var row :| row in r.blockerEvidence && BlockerKey(t, row) == g.package;
    hide StructureOk, Statuses;
    RowsOfPackage(t, r.blockerEvidence, g.package);
    assert BlockerRowOk(t, r.gaps, row);
    var moves := PackageTransitions(t, r.blockerEvidence, g.package);
    var last := LastMove(t, r.blockerEvidence, g.package);
    assert BlockerRowOk(t, r.gaps, last);
  }

  lemma {:induction false} RowsOfPackage(t: TextRules, rows: seq<BlockerRow>, package: Id)
    ensures (exists row :: row in rows && BlockerKey(t, row) == package && Transition(t, row.transition).Some?) ==>
      PackageTransitions(t, rows, package) != []
    decreases |rows|
  {
    hide Transition, BlockerKey;
    if rows != [] {
      RowsOfPackage(t, rows[..|rows| - 1], package);
      assert rows == rows[..|rows| - 1] + [rows[|rows| - 1]];
    }
  }

  /** The row that states the last move of a package. */
  lemma {:induction false} LastMove(t: TextRules, rows: seq<BlockerRow>, package: Id) returns (row: BlockerRow)
    requires PackageTransitions(t, rows, package) != []
    ensures row in rows && BlockerKey(t, row) == package
    ensures var moves := PackageTransitions(t, rows, package); Transition(t, row.transition) == Some(moves[|moves| - 1])
    decreases |rows|
  {
    hide Transition, BlockerKey;
    var init, last := rows[..|rows| - 1], rows[|rows| - 1];
    if BlockerKey(t, last) == package && Transition(t, last.transition).Some? {
      row := last;
    } else {
      row := LastMove(t, init, package);
    }
  }

  /** No GAP that is still to be worked on, or was, depends on one that was decided against. */
  lemma NoWorkOnDecided(t: TextRules, r: Roadmap, g: Gap, d: Id)
    requires StructureOk(t, r) && g in r.gaps && d in g.dependencies
    requires g.status !in {Blocked, Rejected, Superseded}
    ensures d in IndexGaps(r.gaps) && IndexGaps(r.gaps)[d].status !in {Rejected, Superseded}
  {
    RowChecked(t, r, g);
    hide StructureOk, IndexGaps;
  }

  lemma {:induction false} SelectedSomewhere(packages: seq<Package>, id: Id, package: Id)
    requires package in SelectedBy(packages, id)
    ensures exists p :: p in packages && p.id == package && id in p.gaps
    decreases |packages|
  {
    if packages != [] {
      var init, last := packages[..|packages| - 1], packages[|packages| - 1];
      if package in SelectedBy(init, id) {
        SelectedSomewhere(init, id, package);
      } else {
        OccursIn(last.gaps, id, last.id, package);
        assert last in packages;
      }
    }
  }

  lemma {:induction false} OccursIn(ids: seq<Id>, id: Id, package: Id, found: Id)
    requires found in Occurrences(ids, id, package)
    ensures found == package && id in ids
    decreases |ids|
  {
    if found in Occurrences(ids[..|ids| - 1], id, package) {
      OccursIn(ids[..|ids| - 1], id, package, found);
    }
  }

  /** Each work package selects exactly the GAPs of its own name, and every GAP is selected. */
  lemma SelectorsPartition(t: TextRules, r: Roadmap)
    requires StructureOk(t, r)
    ensures forall p, id | p in r.packages :: id in p.gaps <==> BelongsTo(r.gaps, id, p.id)
    ensures forall g | g in r.gaps :: exists p :: p in r.packages && p.id == g.package && g.id in p.gaps
    ensures forall p, q | p in r.packages && q in r.packages && p.id == q.id :: p == q
  {
    assert GapLedgerOk(t, r) by {
      assert Unfolded(r);
    }
    UniqueIds(t, r);
    IndexHolds(r.gaps);
    forall p, q | p in r.packages && q in r.packages && p.id == q.id
      ensures p == q
    {
      OnePackage(r.packages, p, q);
    }
    forall g | g in r.gaps
      ensures exists p :: p in r.packages && p.id == g.package && g.id in p.gaps
    {
      SelectingPackage(t, r, g);
    }
    forall p, id | p in r.packages && id in p.gaps
      ensures BelongsTo(r.gaps, id, p.id)
    {
      assert SelectorOk(IndexGaps(r.gaps), p);
      assert IndexGaps(r.gaps)[id] in r.gaps;
    }
    hide StructureOk, GapLedgerOk, IndexGaps, NoDuplicates;
  }

  lemma OnePackage(packages: seq<Package>, p: Package, q: Package)
    requires NoDuplicates(PackageIds(packages)) && p in packages && q in packages && p.id == q.id
    ensures p == q
  {
    var i :| 0 <= i < |packages| && packages[i] == p;
    var j :| 0 <= j < |packages| && packages[j] == q;
    assert PackageIds(packages)[i] == PackageIds(packages)[j];
  }

  lemma SelectingPackage(t: TextRules, r: Roadmap, g: Gap)
    requires GapLedgerOk(t, r) && g in r.gaps
    ensures exists p :: p in r.packages && p.id == g.package && g.id in p.gaps
  {
    assert SelectionOk(r.packages, g);
    var package := SelectedBy(r.packages, g.id)[0];
    assert package in SelectedBy(r.packages, g.id);
    SelectedSomewhere(r.packages, g.id, package);
    var p :| p in r.packages && p.id == package && g.id in p.gaps;
    assert SelectorOk(IndexGaps(r.gaps), p);
    IndexFindsRow(r.gaps, g);
  }

  // ---- What is recorded is what happened -----------------------------------------------------

  lemma NewRowsChecked(t: TextRules, base: Roadmap, current: Roadmap)
    requires BranchStep(t, Develop, base, current)
    ensures NewEvidenceOk(t, base, current)
  {
    var trustedMain := DevelopStep(t, base, current);
    assert Unfolded(current);
  }

  /** Every row a step adds to an evidence table states a structured pass, and every blocker row
      states the move its package makes. */
  lemma NewRowsAreVerified(t: TextRules, base: Roadmap, current: Roadmap)
    requires BranchStep(t, Develop, base, current)
    ensures forall row | row in current.developEvidence && row !in base.developEvidence :: (t.structuredPass)(row.verification)
    ensures forall row | row in current.mainEvidence && row !in base.mainEvidence :: (t.structuredPass)(row.verification)
    ensures forall row | row in current.decisionEvidence && row !in base.decisionEvidence :: (t.structuredPass)(row.reaudit)
    ensures forall row | row in current.blockerEvidence && row !in base.blockerEvidence ::
      && (t.structuredPass)(row.reaudit)
      && Transition(t, row.transition).Some?
      && Statuses(base.gaps, BlockerKey(t, row)) == {Transition(t, row.transition).value.0}
      && Statuses(current.gaps, BlockerKey(t, row)) == {Transition(t, row.transition).value.1}
  {
    NewRowsChecked(t, base, current);
    hide BranchStep, Statuses, IndexGaps;
  }

  /** A step brings a develop row of a package exactly when it makes the package IN_DEVELOP. */
  lemma DeliveryIffRow(t: TextRules, base: Roadmap, current: Roadmap, i: nat)
    requires BranchStep(t, Develop, base, current) && i < |base.gaps| && i < |current.gaps|
    ensures base.gaps[i].status != current.gaps[i].status == InDevelop <==>
      exists row :: row in current.developEvidence && row !in base.developEvidence
                    && DevelopKey(t, row) == base.gaps[i].package
  {
    var trustedMain := StepRow(t, base, current, i);
    NewRowsChecked(t, base, current);
    var _ := DevelopStep(t, base, current);
    StatusOfPackage(t, base, base.gaps[i]);
    StatusOfPackage(t, current, current.gaps[i]);
    hide BranchStep, StructureOk, TransitionsOk, Statuses, EdgesAccounted;
  }

  /** A step brings a blocker row of a package exactly when it blocks or unblocks the package. */
  lemma BlockingIffRow(t: TextRules, base: Roadmap, current: Roadmap, i: nat)
    requires BranchStep(t, Develop, base, current) && i < |base.gaps| && i < |current.gaps|
    ensures (base.gaps[i].status == Blocked) != (current.gaps[i].status == Blocked) <==>
      exists row :: row in current.blockerEvidence && row !in base.blockerEvidence
                    && BlockerKey(t, row) == base.gaps[i].package
  {
    var trustedMain := StepRow(t, base, current, i);
    NewRowsChecked(t, base, current);
    var _ := DevelopStep(t, base, current);
    StatusOfPackage(t, base, base.gaps[i]);
    StatusOfPackage(t, current, current.gaps[i]);
    BlockerRowsMove(t, current);
    hide BranchStep, StructureOk, TransitionsOk, Statuses, EdgesAccounted;
  }

  lemma BlockerRowsMove(t: TextRules, r: Roadmap)
    requires StructureOk(t, r)
    ensures forall row | row in r.blockerEvidence ::
      var move := Transition(t, row.transition); move.Some? && (move.value.0 == Blocked) != (move.value.1 == Blocked)
  {
    assert BlockerEvidenceOk(t, r) by {
      assert Unfolded(r);
    }
    forall row | row in r.blockerEvidence
      ensures var move := Transition(t, row.transition);
        move.Some? && (move.value.0 == Blocked) != (move.value.1 == Blocked)
    {
      assert BlockerRowOk(t, r.gaps, row);
    }
  }

  ghost predicate Rewired(before: Gap, after: Gap) {
    exists d :: (d in before.dependencies) != (d in after.dependencies)
  }

  ghost predicate Decided(before: Gap, after: Gap) {
    (before.status != after.status && after.status in {Rejected, Superseded}) || Rewired(before, after)
  }

  /** A step brings a decision row of a known GAP exactly when it rejects or supersedes the GAP
      or changes its dependencies. */
  lemma DecisionIffRow(t: TextRules, base: Roadmap, current: Roadmap, i: nat)
    requires BranchStep(t, Develop, base, current) && i < |base.gaps| && i < |current.gaps|
    ensures Decided(base.gaps[i], current.gaps[i]) <==>
      exists row :: row in current.decisionEvidence && row !in base.decisionEvidence
                    && DecisionKey(t, row) == base.gaps[i].id
  {
    var trustedMain := StepRow(t, base, current, i);
    hide BranchStep, KeptGapOk, Decided;
    DecisionBringsRow(t, base, current, trustedMain, base.gaps[i], current.gaps[i]);
    forall row | row in current.decisionEvidence && row !in base.decisionEvidence && DecisionKey(t, row) == base.gaps[i].id
      ensures Decided(base.gaps[i], current.gaps[i])
    {
      RowMeansDecision(t, base, current, i, row);
    }
  }

  lemma DecisionBringsRow(
    t: TextRules, base: Roadmap, current: Roadmap, trustedMain: Option<Roadmap>, before: Gap, after: Gap)
    requires KeptGapOk(t, base, current, trustedMain, false, before, after) && before.id == after.id
    ensures Decided(before, after) ==>
      exists row :: row in current.decisionEvidence && row !in base.decisionEvidence && DecisionKey(t, row) == before.id
  {
    RewiredEdges(before, after);
    hide Rewired, RemovedEdges, AddedEdges, SameRegistration;
  }

  lemma RowMeansDecision(t: TextRules, base: Roadmap, current: Roadmap, i: nat, row: DecisionRow)
    requires BranchStep(t, Develop, base, current) && i < |base.gaps| && i < |current.gaps|
    requires row in current.decisionEvidence && row !in base.decisionEvidence && DecisionKey(t, row) == base.gaps[i].id
    ensures Decided(base.gaps[i], current.gaps[i])
  {
    NewRowsChecked(t, base, current);
    var _ := DevelopStep(t, base, current);
    hide BranchStep, TransitionsOk, NewDecisionRowOk, Extends;
    assert NewDecisionRowOk(t, base, current, row);
    UniqueIds(t, base);
    UniqueIds(t, current);
    var _ := StepRow(t, base, current, i);
    IndexedAt(base, i);
    IndexedAt(current, i);
    DecisionKinds(t, current);
    RowChecked(t, current, current.gaps[i]);
    hide StructureOk, IndexGaps, NewEvidenceOk, KeptGapOk, NoDuplicates, DECISION_KINDS;
    RowDecides(t, base, current, base.gaps[i], current.gaps[i], row);
  }

  lemma KindOfStatus(s: Status)
    requires StatusText(s) in DECISION_KINDS && !s.Unlisted?
    ensures s in {Rejected, Superseded}
  {
  }

  lemma RowDecides(t: TextRules, base: Roadmap, current: Roadmap, before: Gap, after: Gap, row: DecisionRow)
    requires NewDecisionRowOk(t, base, current, row) && DecisionKind(t, row) in DECISION_KINDS && !after.status.Unlisted?
    requires DecisionKey(t, row) in IndexGaps(base.gaps) && IndexGaps(base.gaps)[DecisionKey(t, row)] == before
    requires DecisionKey(t, row) in IndexGaps(current.gaps) && IndexGaps(current.gaps)[DecisionKey(t, row)] == after
    ensures Decided(before, after)
  {
    RewiredEdges(before, after);
    hide DECISION_KINDS, StatusText, IndexGaps, Rewired;
    if before.status != after.status && StatusText(after.status) == DecisionKind(t, row) {
      KindOfStatus(after.status);
    }
  }

  lemma RewiredEdges(before: Gap, after: Gap)
    ensures Rewired(before, after) <==> RemovedEdges(before, after) != {} || AddedEdges(before, after) != {}
  {
    if Rewired(before, after) {
      var d :| (d in before.dependencies) != (d in after.dependencies);
      assert d in RemovedEdges(before, after) || d in AddedEdges(before, after);
    }
    if d :| d in RemovedEdges(before, after) + AddedEdges(before, after) {
      assert (d in before.dependencies) != (d in after.dependencies);
    }
  }

  lemma DecisionKinds(t: TextRules, r: Roadmap)
    requires StructureOk(t, r)
    ensures forall row | row in r.decisionEvidence :: DecisionKind(t, row) in DECISION_KINDS
  {
    assert DecisionEvidenceOk(t, r) by {
      assert Unfolded(r);
    }
    forall row | row in r.decisionEvidence
      ensures DecisionKind(t, row) in DECISION_KINDS
    {
      assert DecisionRowOk(t, IndexGaps(r.gaps), row);
    }
  }

  // ---- Over a run -----------------------------------------------------------------------------

  /** REJECTED and SUPERSEDED are for good. */
  lemma {:induction false} DecidedForGood(t: TextRules, docs: seq<Roadmap>, i: nat, j: nat, k: nat)
    requires BranchRun(t, Develop, docs) && j <= k < |docs|
    requires i < |docs[j].gaps| && docs[j].gaps[i].status in {Rejected, Superseded}
    ensures StatusIs(docs[k], i, docs[j].gaps[i].status)
    decreases k
  {
    hide StructureOk, TransitionsOk;
    if j < k {
      DecidedForGood(t, docs, i, j, k - 1);
      assert BranchStep(t, Develop, docs[k - 1], docs[k]);
      hide BranchStep;
      StepMoves(t, docs[k - 1], docs[k], i);
    }
  }

  /** The decision row that explains one edge gone or come. */
  predicate Explains(t: TextRules, row: DecisionRow, id: Id, d: Id, added: bool) {
    && DecisionKey(t, row) == id
    && DecisionKind(t, row) == (if added then DEPENDENCY_ADDED else DEPENDENCY_REMOVED)
    && DecisionReferences(t, row).Some? && d in DecisionReferences(t, row).value
  }

  lemma StepExplains(t: TextRules, base: Roadmap, current: Roadmap, i: nat, d: Id)
    requires BranchStep(t, Develop, base, current) && i < |base.gaps| && i < |current.gaps|
    requires (d in base.gaps[i].dependencies) != (d in current.gaps[i].dependencies)
    ensures exists row :: row in current.decisionEvidence && row !in base.decisionEvidence
                          && Explains(t, row, base.gaps[i].id, d, d in current.gaps[i].dependencies)
  {
    var trustedMain := StepRow(t, base, current, i);
    hide BranchStep, StatusChangeOk;
    var before, after := base.gaps[i], current.gaps[i];
    assert d in (if d in after.dependencies then AddedEdges(before, after) else RemovedEdges(before, after));
  }

  /** Over a whole run, a dependency that has gone or come is named by a decision row of that
      kind for that GAP which the run has added. */
  lemma {:induction false} EdgesExplained(t: TextRules, docs: seq<Roadmap>, i: nat, d: Id, n: nat) returns (row: DecisionRow)
    requires BranchRun(t, Develop, docs) && n < |docs| && i < |docs[0].gaps| && i < |docs[n].gaps|
    requires (d in docs[0].gaps[i].dependencies) != (d in docs[n].gaps[i].dependencies)
    ensures row in docs[n].decisionEvidence && row !in docs[0].decisionEvidence
    ensures Explains(t, row, docs[0].gaps[i].id, d, d in docs[n].gaps[i].dependencies)
    decreases n
  {
    hide StructureOk, TransitionsOk, Explains;
    RowStays(t, Develop, docs, i, n - 1);
    var base, current := docs[n - 1], docs[n];
    assert BranchStep(t, Develop, base, current);
    hide BranchStep;
    StepExtends(t, Develop, base, current);
    RunExtends(t, Develop, docs, 0, n - 1);
    if (d in base.gaps[i].dependencies) != (d in current.gaps[i].dependencies) {
      StepExplains(t, base, current, i, d);
      row :| row in current.decisionEvidence && row !in base.decisionEvidence
             && Explains(t, row, base.gaps[i].id, d, d in current.gaps[i].dependencies);
      if row in docs[0].decisionEvidence {
        PrefixMember(docs[0].decisionEvidence, base.decisionEvidence, row);
      }
    } else {
      row := EdgesExplained(t, docs, i, d, n - 1);
      PrefixMember(base.decisionEvidence, current.decisionEvidence, row);
    }
  }
}
