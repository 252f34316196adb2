/** A small run in which one feature step copies two closures in swapped order and
    promotion is lost for good. */
module RoadmapExample {
  import opened Prelude
  import opened RoadmapModel
  import opened RoadmapRules
  import opened RoadmapDelivery
  import opened RoadmapBranches
  import opened RoadmapPromotion
  import opened RoadmapSync

  /** The cells of two one-GAP packages whose evidence says the same. */
  datatype Cells = Cells(
    first: Id, second: Id, firstPackage: Id, secondPackage: Id,
    baseline: Cell, exit: Cell, feature: Cell, commit: Cell, release: Cell, verification: Cell,
    migration: Cell, documentation: Cell)

  const CELLS := Cells(
    "EXT-001", "EXT-002", "R1.1", "R1.2",
    "core/plugins/loader.py has no registry", "One registry owns every plugin",
    "[#101](https://github.com/mangowhoiscloud/geode/pull/101)",
    "9fceb02d0ae598e95dc970b74767f19372d61af8",
    "v1.4.0",
    "`pytest tests/core/plugins` RESULT: PASS",
    "Existing plugins load unchanged", "docs/architecture/plugins.md")

  /** The judgements read an id as itself and a one-id list as that id. */
  predicate ReadsId(t: TextRules, id: Id) {
    !(t.empty)(id) && (t.clean)(id) == id && (t.gapList)(id) == Some([id])
  }

  predicate ReadsPackage(t: TextRules, id: Id) {
    !(t.empty)(id) && (t.clean)(id) == id && (t.packageFormat)(id)
  }

  predicate Distinct(c: Cells) { c.first != c.second && c.firstPackage != c.secondPackage }

  /** The judgements accept each cell for what its column asks. */
  predicate Reads(t: TextRules, c: Cells) {
    && Distinct(c)
    && ReadsId(t, c.first) && ReadsId(t, c.second)
    && ReadsPackage(t, c.firstPackage) && ReadsPackage(t, c.secondPackage)
    && (t.meaningful)(c.baseline) && (t.meaningful)(c.exit)
    && !(t.empty)(c.feature) && (t.prLink)(c.feature)
    && !(t.empty)(c.commit) && (t.sha)(c.commit)
    && !(t.empty)(c.release) && (t.releaseVersion)(c.release)
    && !(t.empty)(c.verification) && (t.verified)(c.verification) && (t.structuredPass)(c.verification)
    && !(t.empty)(c.migration) && (t.meaningful)(c.migration)
    && !(t.empty)(c.documentation) && (t.meaningful)(c.documentation)
  }

  /** The cells can be read: for instance by judgements that take every id and cell as written. */
  lemma CellsCanBeRead() returns (t: TextRules)
    ensures Reads(t, CELLS)
  {
    t := TextRules(
      cell => cell, cell => false, cell => true, cell => true, cell => true, cell => true, cell => true,
      cell => true, cell => true, cell => true, cell => true, cell => true, id => true,
      cell => Some([cell]), cell => false, cell => None);
    assert CELLS.first[6] != CELLS.second[6] && CELLS.firstPackage[3] != CELLS.secondPackage[3];
  }

  function Closure(c: Cells, id: Id): MainRow {
    MainRow(id, c.feature, c.release, c.verification, c.migration, c.documentation)
  }

  function First(c: Cells): MainRow { Closure(c, c.first) }
  function Second(c: Cells): MainRow { Closure(c, c.second) }

  function FirstDelivery(c: Cells): DevelopRow {
    DevelopRow(c.firstPackage, c.first, c.feature, c.commit, c.verification)
  }

  function SecondDelivery(c: Cells): DevelopRow {
    DevelopRow(c.secondPackage, c.second, c.feature, c.commit, c.verification)
  }

  function FirstGap(c: Cells, status: Status): Gap {
    Gap(c.first, "ABSENT", c.baseline, c.exit, c.firstPackage, [], status)
  }

  function SecondGap(c: Cells, status: Status): Gap {
    Gap(c.second, "ABSENT", c.baseline, c.exit, c.secondPackage, [], status)
  }

  /** Two independent one-GAP packages, both at `status`. */
  function Ledger(c: Cells, status: Status, rows: seq<MainRow>): Roadmap {
    Roadmap(
      [FirstGap(c, status), SecondGap(c, status)],
      [Package(c.firstPackage, [c.first]), Package(c.secondPackage, [c.second])],
      [c.firstPackage, c.secondPackage],
      [],
      [FirstDelivery(c), SecondDelivery(c)],
      rows, [], [])
  }

  function Delivered(c: Cells): Roadmap { Ledger(c, InDevelop, []) }
  function Closed(c: Cells): Roadmap { Ledger(c, Done, [First(c), Second(c)]) }

  lemma PairIndex(g: Gap, h: Gap)
    requires g.id != h.id
    ensures IndexGaps([g, h]) == map[g.id := g, h.id := h]
    ensures GapIds([g, h]) == [g.id, h.id] && GapIds([g]) == [g.id]
  {
    assert [g, h][..1] == [g] && [g][..0] == [];
    assert IndexGaps([g]) == map[g.id := g];
  }

  lemma OneMember(g: Gap, package: Id)
    ensures Members([g], package) == if g.package == package then [g] else []
  {
    assert [g][..0] == [];
  }

  lemma PairMembers(g: Gap, h: Gap)
    requires g.package != h.package
    ensures Members([g, h], g.package) == [g] && Members([g, h], h.package) == [h]
    ensures Statuses([g, h], g.package) == {g.status} && Statuses([g, h], h.package) == {h.status}
  {
    assert [g, h][..1] == [g];
    OneMember(g, g.package);
    OneMember(g, h.package);
    assert g in [g, h] && h in [g, h];
  }

  lemma GapsShape(c: Cells, status: Status)
    requires Distinct(c)
    ensures var gaps := [FirstGap(c, status), SecondGap(c, status)];
      && IndexGaps(gaps) == map[c.first := FirstGap(c, status), c.second := SecondGap(c, status)]
      && Members(gaps, c.firstPackage) == [FirstGap(c, status)]
      && Members(gaps, c.secondPackage) == [SecondGap(c, status)]
      && Statuses(gaps, c.firstPackage) == {status} && Statuses(gaps, c.secondPackage) == {status}
      && GapIds(gaps) == [c.first, c.second]
      && GapIds([FirstGap(c, status)]) == [c.first] && GapIds([SecondGap(c, status)]) == [c.second]
  {
    hide IndexGaps, Members, Statuses, GapIds;
    var g, h := FirstGap(c, status), SecondGap(c, status);
    PairIndex(g, h);
    PairIndex(h, g);
    PairMembers(g, h);
  }

  lemma OneOccurrence(listed: Id, id: Id, package: Id)
    ensures Occurrences([listed], id, package) == if listed == id then [package] else []
  {
    assert [listed][..0] == [];
  }

  lemma SelectionShape(first: Id, second: Id, firstPackage: Id, secondPackage: Id)
    requires first != second
    ensures var packages := [Package(firstPackage, [first]), Package(secondPackage, [second])];
      SelectedBy(packages, first) == [firstPackage] && SelectedBy(packages, second) == [secondPackage]
  {
    var p, q := Package(firstPackage, [first]), Package(secondPackage, [second]);
    assert [p, q][..1] == [p] && [p][..0] == [];
    OneOccurrence(first, first, firstPackage);
    OneOccurrence(first, second, firstPackage);
    OneOccurrence(second, first, secondPackage);
    OneOccurrence(second, second, secondPackage);
    hide Occurrences;
    assert SelectedBy([p][..0], first) == [] && SelectedBy([p][..0], second) == [];
    assert SelectedBy([p], first) == [firstPackage] && SelectedBy([p], second) == [];
  }

  lemma CycleHasEdge(index: map<Id, Gap>, path: seq<Id>)
    requires IsCycle(index, path)
    ensures path[0] in index && index[path[0]].dependencies != []
  {
    assert path[1] in index[path[0]].dependencies;
  }

  lemma LedgerAcyclic(c: Cells, status: Status)
    requires Distinct(c)
    ensures Acyclic(IndexGaps([FirstGap(c, status), SecondGap(c, status)]))
  {
    GapsShape(c, status);
    var index := IndexGaps([FirstGap(c, status), SecondGap(c, status)]);
    forall path
      ensures !IsCycle(index, path)
    {
      hide IsCycle;
      if IsCycle(index, path) {
        CycleHasEdge(index, path);
      }
    }
  }

  lemma LedgerSelectionOk(c: Cells, status: Status, rows: seq<MainRow>)
    requires Distinct(c)
    ensures var r := Ledger(c, status, rows);
      && SelectionOk(r.packages, FirstGap(c, status)) && SelectionOk(r.packages, SecondGap(c, status))
      && NoDuplicates(r.packageHeadings) && NoDuplicates(PackageIds(r.packages))
  {
    var r := Ledger(c, status, rows);
    SelectionShape(c.first, c.second, c.firstPackage, c.secondPackage);
    hide SelectedBy;
    assert r.packages[0] in r.packages && r.packages[0].id == c.firstPackage;
    assert r.packages[1] in r.packages && r.packages[1].id == c.secondPackage;
  }

  lemma LedgerGapsOk(t: TextRules, c: Cells, status: Status, rows: seq<MainRow>)
    requires Reads(t, c)
    requires status in DELIVERED
    ensures GapLedgerOk(t, Ledger(c, status, rows))
  {
    LedgerRowsOk(t, c, status);
    LedgerSelectionOk(c, status, rows);
    GapsShape(c, status);
    hide IndexGaps, SelectionOk, Members, Statuses, PackageIds, GapRowOk, Reads;
  }

  lemma LedgerRowsOk(t: TextRules, c: Cells, status: Status)
    requires Reads(t, c) && status in DELIVERED
    ensures var index := IndexGaps([FirstGap(c, status), SecondGap(c, status)]);
      GapRowOk(t, index, FirstGap(c, status)) && GapRowOk(t, index, SecondGap(c, status))
  {
    hide IndexGaps;
  }

  lemma LedgerClaimsOk(t: TextRules, c: Cells, status: Status, rows: seq<MainRow>)
    requires Reads(t, c)
    requires status in DELIVERED
    ensures ClaimsOk(t, Ledger(c, status, rows))
  {
    GapsShape(c, status);
  }

  lemma DeliveryRowsOk(t: TextRules, c: Cells, status: Status)
    requires Reads(t, c) && status in DELIVERED
    ensures var gaps := [FirstGap(c, status), SecondGap(c, status)];
      DevelopRowOk(t, gaps, FirstDelivery(c)) && DevelopRowOk(t, gaps, SecondDelivery(c))
    ensures DevelopKey(t, FirstDelivery(c)) == c.firstPackage && DevelopKey(t, SecondDelivery(c)) == c.secondPackage
  {
    GapsShape(c, status);
    hide Members, Statuses, GapIds;
  }

  lemma LedgerDeliveriesOk(t: TextRules, c: Cells, status: Status, rows: seq<MainRow>)
    requires Reads(t, c)
    requires status in DELIVERED
    ensures DevelopEvidenceOk(t, Ledger(c, status, rows))
  {
    GapsShape(c, status);
    DeliveryRowsOk(t, c, status);
    var r := Ledger(c, status, rows);
    hide DevelopRowOk, Members, Statuses, GapIds;
    assert r.developEvidence[0] == FirstDelivery(c) && r.developEvidence[1] == SecondDelivery(c);
    assert FirstDelivery(c) in r.developEvidence && SecondDelivery(c) in r.developEvidence;
  }

  lemma LedgerRestOk(t: TextRules, c: Cells, status: Status, rows: seq<MainRow>)
    requires Reads(t, c)
    requires status in DELIVERED
    ensures var r := Ledger(c, status, rows); DecisionEvidenceOk(t, r) && BlockerEvidenceOk(t, r)
  {
    GapsShape(c, status);
  }

  lemma ClosuresOk(t: TextRules, c: Cells)
    requires Reads(t, c)
    ensures MainEvidenceOk(t, Delivered(c)) && MainEvidenceOk(t, Closed(c))
  {
    GapsShape(c, Done);
    var r := Closed(c);
    assert MainRowOk(t, IndexGaps(r.gaps), First(c)) && MainRowOk(t, IndexGaps(r.gaps), Second(c));
    hide MainRowOk, IndexGaps, Members, Statuses, GapIds;
    assert r.mainEvidence[0] == First(c) && r.mainEvidence[1] == Second(c);
    assert First(c) in r.mainEvidence && Second(c) in r.mainEvidence;
  }

  lemma LedgerParsed(t: TextRules, c: Cells, status: Status, rows: seq<MainRow>)
    requires Reads(t, c)
    ensures Parsed(t, Ledger(c, status, rows))
    ensures Ledger(c, status, rows).gaps == [FirstGap(c, status), SecondGap(c, status)]
  {
    var r := Ledger(c, status, rows);
    assert r.packageHeadings[0] == c.firstPackage && r.packageHeadings[1] == c.secondPackage;
    assert r.packages[0].id == c.firstPackage && r.packages[1].id == c.secondPackage;
  }

  lemma LedgerOk(t: TextRules, c: Cells, status: Status, rows: seq<MainRow>)
    requires Reads(t, c)
    requires status in DELIVERED && MainEvidenceOk(t, Ledger(c, status, rows))
    ensures DocumentOk(t, Some(Ledger(c, status, rows)))
  {
    LedgerGapsOk(t, c, status, rows);
    LedgerAcyclic(c, status);
    LedgerClaimsOk(t, c, status, rows);
    LedgerDeliveriesOk(t, c, status, rows);
    LedgerRestOk(t, c, status, rows);
    LedgerParsed(t, c, status, rows);
    hide Ledger, FirstGap, SecondGap, GapLedgerOk, ClaimsOk, DevelopEvidenceOk, MainEvidenceOk;
    hide DecisionEvidenceOk, BlockerEvidenceOk, Acyclic, IndexGaps, Parsed;
  }

  lemma LedgersOk(t: TextRules, c: Cells)
    requires Reads(t, c)
    ensures DocumentOk(t, Some(Delivered(c))) && DocumentOk(t, Some(Closed(c)))
    ensures DoneIds(Delivered(c)) == {}
  {
    ClosuresOk(t, c);
    LedgerOk(t, c, InDevelop, []);
    LedgerOk(t, c, Done, [First(c), Second(c)]);
    hide StructureOk, Parsed;
  }

  lemma ClosureRowsNew(t: TextRules, c: Cells)
    requires Reads(t, c)
    ensures First(c) in Closed(c).mainEvidence && First(c) !in Delivered(c).mainEvidence
    ensures Second(c) in Closed(c).mainEvidence && Second(c) !in Delivered(c).mainEvidence
    ensures MainKey(t, First(c)) == c.first && MainKey(t, Second(c)) == c.second
  {
    assert Closed(c).mainEvidence[0] == First(c) && Closed(c).mainEvidence[1] == Second(c);
  }

  lemma ClosedGapAccepted(t: TextRules, c: Cells, g: Gap, h: Gap)
    requires Reads(t, c)
    requires || (g == FirstGap(c, InDevelop) && h == FirstGap(c, Done))
             || (g == SecondGap(c, InDevelop) && h == SecondGap(c, Done))
    ensures KeptGapOk(t, Delivered(c), Closed(c), None, true, g, h)
  {
    ClosureRowsNew(t, c);
    hide Ledger;
  }

  lemma ClosureRowsAccepted(t: TextRules, c: Cells)
    requires Reads(t, c)
    ensures NewMainRowOk(t, Delivered(c), Closed(c), First(c))
    ensures NewMainRowOk(t, Delivered(c), Closed(c), Second(c))
  {
    ClosureRowsNew(t, c);
    GapsShape(c, InDevelop);
    GapsShape(c, Done);
    hide IndexGaps, Members, Statuses, GapIds;
  }

  lemma ClosingChangesGaps(t: TextRules, c: Cells)
    requires Reads(t, c)
    ensures GapChangesOk(t, Delivered(c), Closed(c), None, true)
  {
    GapsShape(c, InDevelop);
    GapsShape(c, Done);
    ClosedGapAccepted(t, c, FirstGap(c, InDevelop), FirstGap(c, Done));
    ClosedGapAccepted(t, c, SecondGap(c, InDevelop), SecondGap(c, Done));
    hide KeptGapOk, IndexGaps, Members, Statuses;
  }

  lemma ClosingAddsRows(t: TextRules, c: Cells)
    requires Reads(t, c)
    ensures NewEvidenceOk(t, Delivered(c), Closed(c))
  {
    ClosureRowsAccepted(t, c);
    hide KeptGapOk, NewMainRowOk, NewDevelopRowOk, IndexGaps;
  }

  lemma ClosingTransitionsOk(t: TextRules, c: Cells)
    requires Reads(t, c)
    ensures TransitionsOk(t, Delivered(c), Closed(c), None, true)
  {
    ClosingChangesGaps(t, c);
    ClosingAddsRows(t, c);
    var base, current := Delivered(c), Closed(c);
    assert ClaimsKeptOk(base, current) && EvidenceAppended(base, current);
    hide GapChangesOk, NewEvidenceOk, ClaimsKeptOk, EvidenceAppended;
    assert GapChangesOk(t, base, current, None, true) && NewEvidenceOk(t, base, current);
  }

  lemma ClosingTrackingOk(c: Cells)
    requires Distinct(c)
    ensures TrackingOk(Delivered(c), Closed(c))
  {
    GapsShape(c, InDevelop);
    GapsShape(c, Done);
    hide IndexGaps;
  }

  /** Develop delivers both packages, main is promoted, then main closes both GAPs. */
  function ClosingRun(c: Cells): seq<System> {
    [ System([Delivered(c)], []),
      System([Delivered(c)], [Delivered(c)]),
      System([Delivered(c)], [Delivered(c), Closed(c)])]
  }

  lemma RunAccepted(t: TextRules, c: Cells)
    requires Reads(t, c)
    ensures Run(t, ClosingRun(c)) && ClosingRun(c)[0].Nonempty() && Descended(t, ClosingRun(c)[0])
  {
    LedgersOk(t, c);
    ClosingTransitionsOk(t, c);
    ClosingTrackingOk(c);
    hide StructureOk, TransitionsOk, TrackingOk, Ledger, Delivered, Closed;
    assert MainStep(t, ClosingRun(c)[0], ClosingRun(c)[1], PullRequest, Some(Delivered(c)));
    assert MainStep(t, ClosingRun(c)[1], ClosingRun(c)[2], PullRequest, None);
    NoMainDescends(t, ClosingRun(c)[0]);
  }

  lemma SwappedRows(t: TextRules, c: Cells)
    requires Reads(t, c)
    ensures Copies(t, Delivered(c), Closed(c), [Second(c), First(c)])
    ensures !([Second(c), First(c)] <= Closed(c).mainEvidence) && Delivered(c).mainEvidence == []
  {
    assert MainKeys(t, [Second(c), First(c)]) == [c.second, c.first];
    assert Closed(c).mainEvidence[0] == First(c);
  }

  /** Develop may copy the two closures in swapped order: the step is accepted, and
      from then on no continuation of the run ever promotes develop again. */
  lemma SwappedCopyLosesPromotion(t: TextRules, c: Cells) returns (run: seq<System>)
    requires Reads(t, c)
    ensures run == ClosingRun(c) + [SyncStep(ClosingRun(c)[2], [Second(c), First(c)])]
    ensures Run(t, run) && PromotionAhead(t, ClosingRun(c)) && !PromotionAhead(t, run)
  {
    hide Run, Copies, PromotionAhead, Orderly, Ledger, Descended;
    RunAccepted(t, c);
    var swapped := [Second(c), First(c)];
    SwappedRows(t, c);
    AnyOrderAccepted(t, ClosingRun(c), swapped);
    var next := SyncStep(ClosingRun(c)[2], swapped);
    RunContinues(t, ClosingRun(c), next);
    run := ClosingRun(c) + [next];
    assert run[3] == next;
    assert Rows(ClosingRun(c)[2]) == [];
    OrderlyMeansPromotionAhead(t, ClosingRun(c));
    PromotionAheadIffOrderly(t, run);
    PrefixIffOrderly(t, run, 3);
    assert run[..4] == run;
  }
}
