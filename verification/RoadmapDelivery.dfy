/** What any accepted step keeps: registrations, DONE, the evidence tables as
    prefixes, and therefore delivery itself. */
module RoadmapDelivery {
  import opened Prelude
  import opened RoadmapModel
  import opened RoadmapRules

  /** What a ledger grown from another by accepted steps has in common with it. */
  ghost predicate Extends(base: Roadmap, current: Roadmap) {
    && GapIds(base.gaps) <= GapIds(current.gaps)
    && (forall i | 0 <= i < |base.gaps| :: PromotedGapOk(base.gaps[i], current.gaps[i]))
    && EvidenceAppended(base, current)
  }

  lemma ExtendsReflexive(r: Roadmap)
    ensures Extends(r, r)
  {
  }

  lemma ExtendsTransitive(a: Roadmap, b: Roadmap, c: Roadmap)
    requires Extends(a, b) && Extends(b, c)
    ensures Extends(a, c)
  {
  }

  /** The gap with a known id sits at one position, and the dictionary finds it. */
  lemma IndexedAt(r: Roadmap, i: nat)
    requires NoDuplicates(GapIds(r.gaps)) && i < |r.gaps|
    ensures r.gaps[i].id in IndexGaps(r.gaps) && IndexGaps(r.gaps)[r.gaps[i].id] == r.gaps[i]
  {
    IndexFindsRow(r.gaps, r.gaps[i]);
  }

  lemma SamePosition(base: Roadmap, current: Roadmap, i: nat)
    requires NoDuplicates(GapIds(base.gaps)) && NoDuplicates(GapIds(current.gaps))
    requires GapIds(base.gaps) <= GapIds(current.gaps) && i < |base.gaps|
    ensures i < |current.gaps| && base.gaps[i].id == current.gaps[i].id
    ensures base.gaps[i].id in IndexGaps(base.gaps) && IndexGaps(base.gaps)[base.gaps[i].id] == base.gaps[i]
    ensures base.gaps[i].id in IndexGaps(current.gaps) && IndexGaps(current.gaps)[base.gaps[i].id] == current.gaps[i]
  {
    IndexedAt(base, i);
    assert GapIds(base.gaps)[i] == GapIds(current.gaps)[i];
    IndexedAt(current, i);
  }

  lemma KeptGapPromoted(
    t: TextRules, base: Roadmap, current: Roadmap, trustedMain: Option<Roadmap>, allowDone: bool,
    before: Gap, after: Gap)
    requires KeptGapOk(t, base, current, trustedMain, allowDone, before, after)
    ensures PromotedGapOk(before, after)
  {
  }

  lemma TransitionsExtend(
    t: TextRules, base: Roadmap, current: Roadmap, trustedMain: Option<Roadmap>, allowDone: bool)
    requires NoDuplicates(GapIds(base.gaps)) && NoDuplicates(GapIds(current.gaps))
    requires TransitionsOk(t, base, current, trustedMain, allowDone)
    ensures Extends(base, current)
  {
    assert Unfolded(current);
    forall i | 0 <= i < |base.gaps|
      ensures PromotedGapOk(base.gaps[i], current.gaps[i])
    {
      SamePosition(base, current, i);
      KeptGapPromoted(t, base, current, trustedMain, allowDone, base.gaps[i], current.gaps[i]);
    }
  }

  lemma PromotionExtends(base: Roadmap, current: Roadmap, trustedDevelop: Roadmap)
    requires NoDuplicates(GapIds(base.gaps)) && NoDuplicates(GapIds(current.gaps))
    requires PromotionOk(Some(base), current, trustedDevelop)
    ensures Extends(base, current)
  {
    forall i | 0 <= i < |base.gaps|
      ensures PromotedGapOk(base.gaps[i], current.gaps[i])
    {
      SamePosition(base, current, i);
    }
  }

  lemma UniqueIds(t: TextRules, r: Roadmap)
    requires StructureOk(t, r)
    ensures NoDuplicates(GapIds(r.gaps)) && NoDuplicates(DevelopKeys(t, r.developEvidence))
    ensures NoDuplicates(MainKeys(t, r.mainEvidence))
  {
    assert Unfolded(r);
  }

  /** One accepted step on a branch, whatever its mode and trusted documents. */
  ghost predicate BranchStep(t: TextRules, target: Branch, base: Roadmap, current: Roadmap) {
    exists event, trustedMain, trustedDevelop ::
      Accepted(t, target, event, Some(base), current, trustedMain, trustedDevelop)
  }

  lemma StepExtends(t: TextRules, target: Branch, base: Roadmap, current: Roadmap)
    requires BranchStep(t, target, base, current)
    ensures DocumentOk(t, Some(base)) && DocumentOk(t, Some(current)) && Extends(base, current)
  {
    var event, trustedMain, trustedDevelop :|
      Accepted(t, target, event, Some(base), current, trustedMain, trustedDevelop);
    UniqueIds(t, base);
    UniqueIds(t, current);
    if ExactPromotion(target, event, current, trustedDevelop) {
      PromotionExtends(base, current, trustedDevelop.value);
    } else {
      TransitionsExtend(t, base, current, trustedMain, target == Main);
    }
  }

  // ---- Delivery inside one ledger ------------------------------------------------

  lemma RowChecked(t: TextRules, r: Roadmap, g: Gap)
    requires StructureOk(t, r) && g in r.gaps
    ensures GapRowOk(t, IndexGaps(r.gaps), g)
  {
    assert Unfolded(r);
  }

  lemma SamePackageSameStatus(t: TextRules, r: Roadmap, g: Gap, h: Gap)
    requires StructureOk(t, r) && g in r.gaps && h in r.gaps && g.package == h.package
    ensures g.status == h.status
  {
    assert Unfolded(r);
  }

  lemma DevelopRowChecked(t: TextRules, r: Roadmap, row: DevelopRow)
    requires StructureOk(t, r) && row in r.developEvidence
    ensures Members(r.gaps, DevelopKey(t, row)) != [] && Statuses(r.gaps, DevelopKey(t, row)) <= DELIVERED
  {
    assert Unfolded(r);
    assert DevelopRowOk(t, r.gaps, row);
  }

  lemma RowMeansDelivered(t: TextRules, r: Roadmap, row: DevelopRow, g: Gap)
    requires StructureOk(t, r) && row in r.developEvidence && g in r.gaps && g.package == DevelopKey(t, row)
    ensures g.status in DELIVERED
  {
    DevelopRowChecked(t, r, row);
    assert g.status in Statuses(r.gaps, g.package);
  }

  lemma DeliveredHasRow(t: TextRules, r: Roadmap, g: Gap)
    requires StructureOk(t, r) && g in r.gaps && g.status in DELIVERED
    ensures HasDevelopRow(t, r.developEvidence, g.package)
  {
    forall s | s in Statuses(r.gaps, g.package)
      ensures s in DELIVERED
    {
      var h :| h in r.gaps && h.package == g.package && h.status == s;
      SamePackageSameStatus(t, r, g, h);
    }
    assert Unfolded(r);
  }

  ghost predicate DependencyWalk(r: Roadmap, walk: seq<Id>) {
    var index := IndexGaps(r.gaps);
    && walk != []
    && walk[0] in index
    && (forall i | 0 < i < |walk| :: walk[i - 1] in index ==> walk[i] in index[walk[i - 1]].dependencies)
  }

  /** One dependency edge carries delivery, inside a package or across two. */
  lemma EdgeDelivers(t: TextRules, r: Roadmap, id: Id, d: Id)
    requires StructureOk(t, r)
    requires id in IndexGaps(r.gaps) && d in IndexGaps(r.gaps)[id].dependencies
    requires IndexGaps(r.gaps)[id].status in DELIVERED
    ensures d in IndexGaps(r.gaps) && IndexGaps(r.gaps)[d].status in DELIVERED
  {
    IndexHolds(r.gaps);
    var index := IndexGaps(r.gaps);
    var g := index[id];
    RowChecked(t, r, g);
    if index[d].package == g.package {
      SamePackageSameStatus(t, r, g, index[d]);
    }
  }

  /** Everything a delivered GAP depends on, at any distance, is known and delivered. */
  lemma {:induction false} TransitiveDelivery(t: TextRules, r: Roadmap, walk: seq<Id>)
    requires StructureOk(t, r) && DependencyWalk(r, walk)
    requires IndexGaps(r.gaps)[walk[0]].status in DELIVERED
    ensures forall i | 0 <= i < |walk| ::
      walk[i] in IndexGaps(r.gaps) && IndexGaps(r.gaps)[walk[i]].status in DELIVERED
    decreases |walk|
  {
    if |walk| > 1 {
      var init := walk[..|walk| - 1];
      TransitiveDelivery(t, r, init);
      var id, d := walk[|walk| - 2], walk[|walk| - 1];
      assert init[|init| - 1] == id;
      EdgeDelivers(t, r, id, d);
    }
  }

  // ---- Delivery across steps --------------------------------------------------------

  ghost predicate DeliveredPackage(r: Roadmap, package: Id) {
    exists g :: g in r.gaps && g.package == package && g.status in DELIVERED
  }

  /** Once delivered, a GAP stays delivered in every ledger grown from this one. */
  lemma DeliveredKept(t: TextRules, base: Roadmap, current: Roadmap, i: nat)
    requires StructureOk(t, base) && StructureOk(t, current) && Extends(base, current)
    requires i < |base.gaps| && base.gaps[i].status in DELIVERED
    ensures i < |current.gaps| && current.gaps[i].id == base.gaps[i].id
    ensures current.gaps[i].status in DELIVERED
    ensures base.gaps[i].status == Done ==> current.gaps[i].status == Done
  {
    UniqueIds(t, base);
    UniqueIds(t, current);
    SamePosition(base, current, i);
    DeliveredHasRow(t, base, base.gaps[i]);
    var row :| row in base.developEvidence && DevelopKey(t, row) == base.gaps[i].package;
    PrefixMember(base.developEvidence, current.developEvidence, row);
    assert PromotedGapOk(base.gaps[i], current.gaps[i]);
    RowMeansDelivered(t, current, row, current.gaps[i]);
  }

  lemma PackageStaysDelivered(t: TextRules, base: Roadmap, current: Roadmap, package: Id)
    requires StructureOk(t, base) && StructureOk(t, current) && Extends(base, current)
    requires DeliveredPackage(base, package)
    ensures DeliveredPackage(current, package)
  {
    var g :| g in base.gaps && g.package == package && g.status in DELIVERED;
    var k :| 0 <= k < |base.gaps| && base.gaps[k] == g;
    DeliveredKept(t, base, current, k);
    assert PromotedGapOk(base.gaps[k], current.gaps[k]);
    assert current.gaps[k] in current.gaps;
  }

  /** The table allows IN_DEVELOP to become BLOCKED, REJECTED or SUPERSEDED; no
      accepted step on either branch ever does it. */
  lemma DeliveredIsAbsorbing(t: TextRules, target: Branch, base: Roadmap, current: Roadmap, i: nat)
    requires BranchStep(t, target, base, current)
    requires i < |base.gaps| && base.gaps[i].status in DELIVERED
    ensures i < |current.gaps| && current.gaps[i].id == base.gaps[i].id
    ensures current.gaps[i].status == Done || (current.gaps[i].status == base.gaps[i].status == InDevelop)
  {
    StepExtends(t, target, base, current);
    DeliveredKept(t, base, current, i);
  }

  lemma {:induction false} DevelopKeyUnique(t: TextRules, r: Roadmap, i: nat, j: nat)
    requires NoDuplicates(DevelopKeys(t, r.developEvidence))
    requires i < |r.developEvidence| && j < |r.developEvidence|
    requires DevelopKey(t, r.developEvidence[i]) == DevelopKey(t, r.developEvidence[j])
    ensures i == j
  {
    assert DevelopKeys(t, r.developEvidence)[i] == DevelopKeys(t, r.developEvidence)[j];
  }

  lemma OnlyRowOfPackage(t: TextRules, r: Roadmap, at: nat)
    requires StructureOk(t, r) && at < |r.developEvidence|
    ensures forall k | 0 <= k < |r.developEvidence| ::
      DevelopKey(t, r.developEvidence[k]) == DevelopKey(t, r.developEvidence[at]) <==> k == at
  {
    UniqueIds(t, r);
    forall k | 0 <= k < |r.developEvidence|
                && DevelopKey(t, r.developEvidence[k]) == DevelopKey(t, r.developEvidence[at])
      ensures k == at
    {
      DevelopKeyUnique(t, r, k, at);
    }
  }

  lemma RowsPackageDelivered(t: TextRules, r: Roadmap, row: DevelopRow)
    requires StructureOk(t, r) && row in r.developEvidence
    ensures DeliveredPackage(r, DevelopKey(t, row))
  {
    DevelopRowChecked(t, r, row);
    var g := Members(r.gaps, DevelopKey(t, row))[0];
    assert g in Members(r.gaps, DevelopKey(t, row));
    RowMeansDelivered(t, r, row, g);
  }

  /** A package delivered between two ledgers owes it to one row, appended in between. */
  lemma DeliveryRowAppended(t: TextRules, base: Roadmap, current: Roadmap, package: Id) returns (at: nat)
    requires StructureOk(t, base) && StructureOk(t, current) && Extends(base, current)
    requires !DeliveredPackage(base, package) && DeliveredPackage(current, package)
    ensures |base.developEvidence| <= at < |current.developEvidence|
    ensures forall k | 0 <= k < |current.developEvidence| ::
      DevelopKey(t, current.developEvidence[k]) == package <==> k == at
  {
    var g :| g in current.gaps && g.package == package && g.status in DELIVERED;
    DeliveredHasRow(t, current, g);
    at :| 0 <= at < |current.developEvidence| && DevelopKey(t, current.developEvidence[at]) == package;
    if at < |base.developEvidence| {
      assert base.developEvidence[at] == current.developEvidence[at];
      RowsPackageDelivered(t, base, base.developEvidence[at]);
      assert false;
    }
    OnlyRowOfPackage(t, current, at);
  }

  /** A ledger that repeats an old develop-evidence row below itself is never well formed. */
  lemma RepeatedRowRejected(t: TextRules, base: Roadmap, current: Roadmap, row: DevelopRow)
    requires EvidenceAppended(base, current) && row in base.developEvidence
    requires row in current.developEvidence[|base.developEvidence|..]
    ensures !StructureOk(t, current)
  {
    var i :| 0 <= i < |base.developEvidence| && base.developEvidence[i] == row;
    var j :| |base.developEvidence| <= j < |current.developEvidence| && current.developEvidence[j] == row;
    assert current.developEvidence[i] == row;
    assert Unfolded(current);
    assert DevelopKeys(t, current.developEvidence)[i] == DevelopKeys(t, current.developEvidence)[j];
  }

  // ---- Whole runs of one branch --------------------------------------------------------

  ghost predicate BranchRun(t: TextRules, target: Branch, docs: seq<Roadmap>) {
    && docs != []
    && DocumentOk(t, Some(docs[0]))
    && (forall i, j | 0 <= i < j < |docs| && j == i + 1 :: BranchStep(t, target, docs[i], docs[j]))
  }

  lemma {:induction false} RunExtends(t: TextRules, target: Branch, docs: seq<Roadmap>, i: nat, j: nat)
    requires BranchRun(t, target, docs) && i <= j < |docs|
    ensures DocumentOk(t, Some(docs[i])) && DocumentOk(t, Some(docs[j])) && Extends(docs[i], docs[j])
    decreases j
  {
    if j > 0 {
      StepExtends(t, target, docs[j - 1], docs[j]);
      if i < j {
        RunExtends(t, target, docs, i, j - 1);
        ExtendsTransitive(docs[i], docs[j - 1], docs[j]);
      }
    }
    ExtendsReflexive(docs[j]);
  }

  ghost predicate Enters(base: Roadmap, current: Roadmap, package: Id) {
    && !DeliveredPackage(base, package)
    && DeliveredPackage(current, package)
  }

  /** In a whole run a package becomes delivered at most once. */
  lemma EntersOnce(t: TextRules, target: Branch, docs: seq<Roadmap>, package: Id, i: nat, j: nat)
    requires BranchRun(t, target, docs) && i + 1 < |docs| && j + 1 < |docs|
    requires Enters(docs[i], docs[i + 1], package) && Enters(docs[j], docs[j + 1], package)
    ensures i == j
  {
    if i != j {
      var a, b := if i < j then i else j, if i < j then j else i;
      RunExtends(t, target, docs, a + 1, b);
      PackageStaysDelivered(t, docs[a + 1], docs[b], package);
      assert false;
    }
  }

  /** A package undelivered at the start and delivered at the end entered at one
      step, and its only develop-evidence row was appended by that very step. */
  lemma DeliveryStep(t: TextRules, target: Branch, docs: seq<Roadmap>, package: Id) returns (step: nat, at: nat)
    requires BranchRun(t, target, docs) && Enters(docs[0], docs[|docs| - 1], package)
    ensures step + 1 < |docs| && Enters(docs[step], docs[step + 1], package)
    ensures |docs[step].developEvidence| <= at < |docs[step + 1].developEvidence|
    ensures |docs[step + 1].developEvidence| <= |docs[|docs| - 1].developEvidence|
    ensures var rows := docs[|docs| - 1].developEvidence;
      forall k | 0 <= k < |rows| :: DevelopKey(t, rows[k]) == package <==> k == at
  {
    hide DeliveredPackage, StructureOk, TransitionsOk, TrackingOk, PromotionOk;
    step := 0;
    while !DeliveredPackage(docs[step + 1], package)
      invariant step + 1 < |docs| && !DeliveredPackage(docs[step], package)
      decreases |docs| - step
    {
      step := step + 1;
    }
    StepExtends(t, target, docs[step], docs[step + 1]);
    at := DeliveryRowAppended(t, docs[step], docs[step + 1], package);
    var last := docs[|docs| - 1];
    RunExtends(t, target, docs, step + 1, |docs| - 1);
    assert docs[step + 1].developEvidence[at] == last.developEvidence[at];
    OnlyRowOfPackage(t, last, at);
  }
}
