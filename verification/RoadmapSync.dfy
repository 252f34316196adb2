/** Promotion stays possible: from any reachable state whose closure rows are in
    order, one feature step that copies main's closures, followed by one promotion,
    is accepted. The step is constructed and shown to pass every check. */
module RoadmapSync {
  import opened Prelude
  import opened RoadmapModel
  import opened RoadmapRules
  import opened RoadmapDelivery
  import opened RoadmapBranches
  import opened RoadmapPromotion

  // ---- Main descends from develop -----------------------------------------------------

  /** `m` is a past state of the ledger `d`, up to closures: same registrations, same
      other evidence as a prefix, delivery kept, and no later row in an old package. */
  ghost predicate Lineage(m: Roadmap, d: Roadmap) {
    && GapIds(m.gaps) <= GapIds(d.gaps)
    && (forall i | 0 <= i < |m.gaps| ::
          && SameRegistration(m.gaps[i], d.gaps[i])
          && (m.gaps[i].status in DELIVERED ==> d.gaps[i].status in DELIVERED))
    && (forall i, j | 0 <= i < |m.gaps| <= j < |d.gaps| :: m.gaps[i].package != d.gaps[j].package)
    && m.developEvidence <= d.developEvidence
    && m.decisionEvidence <= d.decisionEvidence
    && m.blockerEvidence <= d.blockerEvidence
  }

  lemma LineageTransitive(a: Roadmap, b: Roadmap, c: Roadmap)
    requires Lineage(a, b) && Lineage(b, c)
    ensures Lineage(a, c)
  {
    forall i, j | 0 <= i < |a.gaps| <= j < |c.gaps|
      ensures a.gaps[i].package != c.gaps[j].package
    {
      assert SameRegistration(a.gaps[i], b.gaps[i]);
      if j < |b.gaps| {
        assert SameRegistration(b.gaps[j], c.gaps[j]);
      }
    }
  }

  lemma LineageReflexive(r: Roadmap)
    ensures Lineage(r, r)
  {
  }

  lemma PackageHasHeading(t: TextRules, r: Roadmap, i: nat)
    requires DocumentOk(t, Some(r)) && i < |r.gaps|
    ensures r.gaps[i].package in r.packageHeadings
  {
    assert Unfolded(r);
    assert SelectionOk(r.packages, r.gaps[i]);
    var p :| p in r.packages && p.id == r.gaps[i].package;
  }

  /** A row added to develop opens a package no earlier row belongs to. */
  lemma NewRowNewPackage(
    t: TextRules, base: Roadmap, current: Roadmap, trustedMain: Option<Roadmap>, i: nat, j: nat)
    requires DocumentOk(t, Some(base)) && DocumentOk(t, Some(current))
    requires TransitionsOk(t, base, current, trustedMain, false)
    requires GapIds(base.gaps) <= GapIds(current.gaps)
    requires i < |base.gaps| <= j < |current.gaps|
    ensures base.gaps[i].package != current.gaps[j].package
  {
    UniqueIds(t, base);
    UniqueIds(t, current);
    GapChanges(t, base, current, trustedMain, false);
    PackageHasHeading(t, base, i);
    IndexedAt(current, j);
    var id := current.gaps[j].id;
    forall k | 0 <= k < |base.gaps|
      ensures base.gaps[k].id != id
    {
      assert GapIds(base.gaps)[k] == GapIds(current.gaps)[k] != GapIds(current.gaps)[j];
    }
    IndexHolds(base.gaps);
    assert id !in IndexGaps(base.gaps);
    assert NewGapOk(base, IndexGaps(current.gaps)[id]);
  }

  lemma FeatureLineage(t: TextRules, s: System, s': System, event: Event, trustedMain: Option<Roadmap>)
    requires FeatureStep(t, s, s', event, trustedMain)
    ensures Lineage(s.Develop(), s'.Develop())
  {
    var base, current := s.Develop(), s'.Develop();
    assert BranchStep(t, Develop, base, current);
    StepExtends(t, Develop, base, current);
    forall i | 0 <= i < |base.gaps|
      ensures SameRegistration(base.gaps[i], current.gaps[i])
      ensures base.gaps[i].status in DELIVERED ==> current.gaps[i].status in DELIVERED
    {
      assert PromotedGapOk(base.gaps[i], current.gaps[i]);
      if base.gaps[i].status in DELIVERED {
        DeliveredKept(t, base, current, i);
      }
    }
    forall i, j | 0 <= i < |base.gaps| <= j < |current.gaps|
      ensures base.gaps[i].package != current.gaps[j].package
    {
      NewRowNewPackage(t, base, current, trustedMain, i, j);
    }
  }

  lemma TrackingLineage(t: TextRules, m: Roadmap, m': Roadmap, d: Roadmap)
    requires StructureOk(t, m) && StructureOk(t, m') && TrackingOk(m, m') && Lineage(m, d)
    ensures Lineage(m', d)
  {
    UniqueIds(t, m);
    UniqueIds(t, m');
    assert forall i | 0 <= i < |m.gaps| :: m'.gaps[i].id == m.gaps[i].id by {
      forall i | 0 <= i < |m.gaps|
        ensures m'.gaps[i].id == m.gaps[i].id
      {
        assert SameOutsideStatus(m.gaps[i], m'.gaps[i]);
      }
    }
    assert GapIds(m'.gaps) == GapIds(m.gaps);
    forall i | 0 <= i < |m'.gaps|
      ensures SameRegistration(m'.gaps[i], d.gaps[i])
      ensures m'.gaps[i].status in DELIVERED ==> d.gaps[i].status in DELIVERED
      ensures m'.gaps[i].package == m.gaps[i].package
    {
      assert SameOutsideStatus(m.gaps[i], m'.gaps[i]) && SameRegistration(m.gaps[i], d.gaps[i]);
      SamePosition(m, m', i);
    }
  }

  // ---- The invariant of a run whose first main, if any, descends from develop ---------

  ghost predicate DevelopLineage(docs: seq<Roadmap>) {
    forall i, j | 0 <= i <= j < |docs| :: Lineage(docs[i], docs[j])
  }

  ghost predicate Descended(t: TextRules, s: System)
    requires s.Nonempty()
  {
    && DevelopLineage(s.develops)
    && (s.mains != [] ==> Lineage(s.mains[|s.mains| - 1], s.Develop()))
    && (forall row | row in s.MainRows() :: (t.structuredPass)(row.verification))
  }

  lemma LineageGrows(docs: seq<Roadmap>, next: Roadmap)
    requires docs != [] && DevelopLineage(docs) && Lineage(docs[|docs| - 1], next)
    ensures DevelopLineage(docs + [next])
  {
    var more := docs + [next];
    LineageReflexive(next);
    forall i, j | 0 <= i <= j < |more|
      ensures Lineage(more[i], more[j])
    {
      if i < |docs| == j {
        LineageTransitive(docs[i], docs[|docs| - 1], next);
      }
    }
  }

  lemma FeatureDescends(t: TextRules, s: System, s': System, event: Event, trustedMain: Option<Roadmap>)
    requires s.Nonempty() && Descended(t, s) && FeatureStep(t, s, s', event, trustedMain)
    ensures Descended(t, s')
  {
    FeatureLineage(t, s, s', event, trustedMain);
    assert s'.develops == s.develops + [s'.Develop()];
    LineageGrows(s.develops, s'.Develop());
    if s.mains != [] {
      LineageTransitive(s.mains[|s.mains| - 1], s.Develop(), s'.Develop());
    }
  }

  lemma MainStepLineage(t: TextRules, s: System, s': System, event: Event, trustedDevelop: Option<Roadmap>)
    requires s.Nonempty() && Descended(t, s) && MainStep(t, s, s', event, trustedDevelop)
    ensures Lineage(s'.mains[|s.mains|], s.Develop())
  {
    var current := s'.mains[|s.mains|];
    if ExactPromotion(Main, event, current, trustedDevelop) {
      var i :| 0 <= i < |s.develops| && s.develops[i] == current;
      assert Lineage(s.develops[i], s.develops[|s.develops| - 1]);
    } else {
      TrackingLineage(t, s.mains[|s.mains| - 1], current, s.Develop());
    }
  }

  lemma MainStepRows(
    t: TextRules, s: System, s': System, event: Event, trustedDevelop: Option<Roadmap>, row: MainRow)
    requires Safe(t, s) && Descended(t, s) && MainStep(t, s, s', event, trustedDevelop)
    requires row in s'.mains[|s.mains|].mainEvidence
    ensures (t.structuredPass)(row.verification)
  {
    hide StructureOk, TransitionsOk, TrackingOk, Parsed, DevelopLineage, Lineage;
    var current := s'.mains[|s.mains|];
    if ExactPromotion(Main, event, current, trustedDevelop) {
      var i :| 0 <= i < |s.develops| && s.develops[i] == current;
      assert Extends(s.develops[i], s.develops[|s.develops| - 1]);
      PrefixMember(current.mainEvidence, Rows(s), row);
    } else if row !in s.MainRows() {
      NewMainRow(t, s.mains[|s.mains| - 1], current, None, true, row);
    }
  }

  lemma StepDescends(t: TextRules, s: System, s': System)
    requires Safe(t, s) && Descended(t, s) && Step(t, s, s')
    ensures s'.Nonempty() && Descended(t, s')
  {
    if event, trustedMain :| FeatureStep(t, s, s', event, trustedMain) {
      FeatureDescends(t, s, s', event, trustedMain);
    } else {
      var event, trustedDevelop :| MainStep(t, s, s', event, trustedDevelop);
      MainStepLineage(t, s, s', event, trustedDevelop);
      forall row | row in s'.MainRows()
        ensures (t.structuredPass)(row.verification)
      {
        MainStepRows(t, s, s', event, trustedDevelop, row);
      }
    }
  }

  lemma DescendsNext(t: TextRules, run: seq<System>, n: nat)
    requires Run(t, run) && n + 1 < |run| && run[n].Nonempty() && Descended(t, run[n])
    ensures run[n + 1].Nonempty() && Descended(t, run[n + 1])
  {
    RunSafe(t, run, n);
    assert Step(t, run[n], run[n + 1]);
    hide Run, Safe, Descended, Step;
    StepDescends(t, run[n], run[n + 1]);
  }

  lemma {:induction false} RunDescends(t: TextRules, run: seq<System>, n: nat)
    requires Run(t, run) && n < |run| && run[0].Nonempty() && Descended(t, run[0])
    ensures run[n].Nonempty() && Descended(t, run[n])
  {
    if n > 0 {
      hide Run, Descended;
      RunDescends(t, run, n - 1);
      DescendsNext(t, run, n - 1);
    }
  }

  /** A repository whose main has no ledger yet starts descended. */
  lemma NoMainDescends(t: TextRules, s: System)
    requires Initial(t, s) && s.mains == []
    ensures s.Nonempty() && Descended(t, s)
  {
    LineageReflexive(s.develops[0]);
  }

  // ---- The copying step, constructed ------------------------------------------------------

  function Mark(g: Gap, done: set<Id>): Gap {
    if g.id in done then g.(status := Done) else g
  }

  function MarkDone(gaps: seq<Gap>, done: set<Id>): (marked: seq<Gap>)
    ensures |marked| == |gaps| && forall i | 0 <= i < |gaps| :: marked[i] == Mark(gaps[i], done)
  {
    seq(|gaps|, i requires 0 <= i < |gaps| => Mark(gaps[i], done))
  }

  /** Develop with every GAP that is DONE on main closed, and this closure table. */
  function Synced(d: Roadmap, m: Roadmap, rows: seq<MainRow>): Roadmap {
    d.(gaps := MarkDone(d.gaps, DoneIds(m)), mainEvidence := rows)
  }

  /** Main's closure rows in some order that begins with develop's. */
  ghost predicate Copies(t: TextRules, d: Roadmap, m: Roadmap, rows: seq<MainRow>) {
    && d.mainEvidence <= rows
    && NoDuplicates(MainKeys(t, rows))
    && (forall row :: row in rows <==> row in m.mainEvidence)
  }

  /** What holds of develop and main when the copying step is taken. */
  ghost predicate Syncable(t: TextRules, d: Roadmap, m: Roadmap) {
    && DocumentOk(t, Some(d)) && DocumentOk(t, Some(m))
    && Lineage(m, d)
    && DoneIds(d) <= DoneIds(m)
    && (forall row | row in d.mainEvidence :: row in m.mainEvidence)
    && (forall row | row in m.mainEvidence :: (t.structuredPass)(row.verification))
  }

  /** The marked ids are delivered on develop, package by package. */
  ghost predicate Closable(gaps: seq<Gap>, done: set<Id>) {
    && NoDuplicates(GapIds(gaps))
    && Atomic(gaps)
    && (forall g | g in gaps && g.id in done :: g.status in DELIVERED)
    && (forall g, h | g in gaps && h in gaps && g.package == h.package && g.id in done :: h.id in done)
  }

  lemma DoneRowOfMain(t: TextRules, d: Roadmap, m: Roadmap, id: Id) returns (i: nat)
    requires Syncable(t, d, m) && id in DoneIds(m)
    ensures i < |m.gaps| && m.gaps[i].id == id && m.gaps[i].status == Done
    ensures i < |d.gaps| && d.gaps[i].id == id && d.gaps[i].status in DELIVERED
    ensures d.gaps[i].package == m.gaps[i].package
  {
    var g :| g in m.gaps && g.status == Done && g.id == id;
    i :| 0 <= i < |m.gaps| && m.gaps[i] == g;
    assert GapIds(m.gaps)[i] == GapIds(d.gaps)[i];
    assert SameRegistration(m.gaps[i], d.gaps[i]);
  }

  lemma ClosedRowDelivered(t: TextRules, d: Roadmap, m: Roadmap, g: Gap)
    requires Syncable(t, d, m) && NoDuplicates(GapIds(d.gaps)) && g in d.gaps && g.id in DoneIds(m)
    ensures g.status in DELIVERED
  {
    var i := DoneRowOfMain(t, d, m, g.id);
    IndexFindsRow(d.gaps, g);
    IndexFindsRow(d.gaps, d.gaps[i]);
  }

  lemma SyncableCloses(t: TextRules, d: Roadmap, m: Roadmap)
    requires Syncable(t, d, m)
    ensures Closable(d.gaps, DoneIds(m))
  {
    UniqueIds(t, d);
    UniqueIds(t, m);
    assert Atomic(d.gaps) by {
      assert Unfolded(d);
    }
    forall g | g in d.gaps && g.id in DoneIds(m)
      ensures g.status in DELIVERED
    {
      ClosedRowDelivered(t, d, m, g);
    }
    forall g, h | g in d.gaps && h in d.gaps && g.package == h.package && g.id in DoneIds(m)
      ensures h.id in DoneIds(m)
    {
      PackageClosedTogether(t, d, m, g, h);
    }
  }

  lemma PackageClosedTogether(t: TextRules, d: Roadmap, m: Roadmap, g: Gap, h: Gap)
    requires Syncable(t, d, m) && NoDuplicates(GapIds(d.gaps))
    requires g in d.gaps && h in d.gaps && g.package == h.package && g.id in DoneIds(m)
    ensures h.id in DoneIds(m)
  {
    var i := DoneRowOfMain(t, d, m, g.id);
    IndexFindsRow(d.gaps, g);
    IndexFindsRow(d.gaps, d.gaps[i]);
    var j :| 0 <= j < |d.gaps| && d.gaps[j] == h;
    assert j < |m.gaps|;
    assert SameRegistration(m.gaps[j], d.gaps[j]);
    SamePackageSameStatus(t, m, m.gaps[i], m.gaps[j]);
    assert GapIds(m.gaps)[j] == GapIds(d.gaps)[j];
  }

  lemma MarkedIds(gaps: seq<Gap>, done: set<Id>)
    ensures GapIds(MarkDone(gaps, done)) == GapIds(gaps)
  {
  }

  lemma MarkedIndex(gaps: seq<Gap>, done: set<Id>)
    requires NoDuplicates(GapIds(gaps))
    ensures IndexGaps(MarkDone(gaps, done)).Keys == IndexGaps(gaps).Keys
    ensures forall id | id in IndexGaps(gaps) :: IndexGaps(MarkDone(gaps, done))[id] == Mark(IndexGaps(gaps)[id], done)
  {
    var marked := MarkDone(gaps, done);
    MarkedIds(gaps, done);
    IndexHolds(gaps);
    IndexHolds(marked);
    forall id
      ensures id in IndexGaps(marked) <==> id in IndexGaps(gaps)
      ensures id in IndexGaps(gaps) ==> IndexGaps(marked)[id] == Mark(IndexGaps(gaps)[id], done)
    {
      if id in IndexGaps(gaps) {
        var i :| 0 <= i < |gaps| && gaps[i] == IndexGaps(gaps)[id];
        IndexFindsRow(marked, marked[i]);
      }
      if id in IndexGaps(marked) {
        var i :| 0 <= i < |marked| && marked[i] == IndexGaps(marked)[id];
        assert gaps[i] in gaps;
      }
    }
  }

  lemma {:induction false} MarkedMembers(gaps: seq<Gap>, done: set<Id>, package: Id)
    ensures GapIds(Members(MarkDone(gaps, done), package)) == GapIds(Members(gaps, package))
    decreases |gaps|
  {
    if gaps != [] {
      var init, last := gaps[..|gaps| - 1], gaps[|gaps| - 1];
      var marked := MarkDone(gaps, done);
      assert marked[..|marked| - 1] == MarkDone(init, done);
      MarkedMembers(init, done, package);
    }
  }

  /** The unmarked row behind a marked one. */
  lemma Unmarked(gaps: seq<Gap>, done: set<Id>, g: Gap) returns (h: Gap)
    requires g in MarkDone(gaps, done)
    ensures h in gaps && g == Mark(h, done)
  {
    var marked := MarkDone(gaps, done);
    var i :| 0 <= i < |marked| && marked[i] == g;
    h := gaps[i];
  }

  /** Marking moves statuses only inside the delivered ones. */
  lemma MarkedStatus(gaps: seq<Gap>, done: set<Id>, package: Id, x: Status)
    requires forall g | g in gaps && g.id in done :: g.status in DELIVERED
    requires x !in DELIVERED
    ensures x in Statuses(gaps, package) <==> x in Statuses(MarkDone(gaps, done), package)
  {
    var marked := MarkDone(gaps, done);
    if x in Statuses(gaps, package) {
      var g :| g in gaps && g.package == package && g.status == x;
      var i :| 0 <= i < |gaps| && gaps[i] == g;
      assert marked[i] in marked;
    }
    if x in Statuses(marked, package) {
      var h := StatusHolder(marked, package, x);
      var g := Unmarked(gaps, done, h);
    }
  }

  lemma StatusHolder(gaps: seq<Gap>, package: Id, x: Status) returns (g: Gap)
    requires x in Statuses(gaps, package)
    ensures g in gaps && g.package == package && g.status == x
  {
    g :| g in gaps && g.package == package && g.status == x;
  }

  lemma MarkedDelivered(gaps: seq<Gap>, done: set<Id>, package: Id)
    requires forall g | g in gaps && g.id in done :: g.status in DELIVERED
    ensures Statuses(MarkDone(gaps, done), package) <= DELIVERED <==> Statuses(gaps, package) <= DELIVERED
  {
    forall x | x !in DELIVERED
      ensures x in Statuses(gaps, package) <==> x in Statuses(MarkDone(gaps, done), package)
    {
      MarkedStatus(gaps, done, package, x);
    }
  }

  lemma MarkedOnly(gaps: seq<Gap>, done: set<Id>, package: Id, x: Status)
    requires forall g | g in gaps && g.id in done :: g.status in DELIVERED
    requires x !in DELIVERED
    ensures Statuses(MarkDone(gaps, done), package) == {x} <==> Statuses(gaps, package) == {x}
  {
    var before, after := Statuses(gaps, package), Statuses(MarkDone(gaps, done), package);
    forall y | y !in DELIVERED
      ensures y in before <==> y in after
    {
      MarkedStatus(gaps, done, package, y);
    }
    forall y | y in DELIVERED && y in before
      ensures after != {x}
    {
      var g := StatusHolder(gaps, package, y);
      var i :| 0 <= i < |gaps| && gaps[i] == g;
      assert MarkDone(gaps, done)[i] in MarkDone(gaps, done);
      assert MarkDone(gaps, done)[i].status in after;
    }
    forall y | y in DELIVERED && y in after
      ensures before != {x}
    {
      var h := StatusHolder(MarkDone(gaps, done), package, y);
      var g := Unmarked(gaps, done, h);
      assert g.status in before;
    }
  }

  lemma MarkedAtomic(gaps: seq<Gap>, done: set<Id>)
    requires Closable(gaps, done)
    ensures Atomic(MarkDone(gaps, done))
  {
    var marked := MarkDone(gaps, done);
    forall g, h | g in marked && h in marked && g.package == h.package
      ensures g.status == h.status
    {
      var i :| 0 <= i < |marked| && marked[i] == g;
      var j :| 0 <= j < |marked| && marked[j] == h;
      assert gaps[i] in gaps && gaps[j] in gaps;
    }
  }

  /** `after` is the dictionary `before` with the rows in `done` marked. */
  ghost predicate MarkedMap(before: map<Id, Gap>, after: map<Id, Gap>, done: set<Id>) {
    && after.Keys == before.Keys
    && (forall id | id in before :: after[id] == Mark(before[id], done))
    && (forall id | id in before && before[id].id in done :: before[id].status in DELIVERED)
  }

  lemma MarkedDictionary(gaps: seq<Gap>, done: set<Id>)
    requires Closable(gaps, done)
    ensures MarkedMap(IndexGaps(gaps), IndexGaps(MarkDone(gaps, done)), done)
  {
    IndexHolds(gaps);
    MarkedIndex(gaps, done);
  }

  lemma MarkedRowOk(t: TextRules, before: map<Id, Gap>, after: map<Id, Gap>, done: set<Id>, g: Gap)
    requires MarkedMap(before, after, done) && GapRowOk(t, before, g)
    requires g.id in done ==> g.status in DELIVERED
    ensures GapRowOk(t, after, Mark(g, done))
  {
    assert forall d | d in before :: after[d].package == before[d].package;
    assert forall d | d in before :: after[d].status in DECISION_STATUSES <==> before[d].status in DECISION_STATUSES;
    assert forall d | d in before :: after[d].status in DELIVERED <==> before[d].status in DELIVERED;
  }

  lemma MarkedMainRowOk(
    t: TextRules, index: map<Id, Gap>, before: map<Id, Gap>, after: map<Id, Gap>, done: set<Id>, row: MainRow)
    requires MarkedMap(before, after, done) && MainRowOk(t, index, row)
    requires MainKey(t, row) in done && MainKey(t, row) in before && before[MainKey(t, row)].id == MainKey(t, row)
    ensures MainRowOk(t, after, row)
  {
  }

  lemma MarkedDecisionRowOk(t: TextRules, before: map<Id, Gap>, after: map<Id, Gap>, done: set<Id>, row: DecisionRow)
    requires MarkedMap(before, after, done) && DecisionRowOk(t, before, row)
    ensures DecisionRowOk(t, after, row)
  {
  }

  lemma MarkedClaimOk(t: TextRules, gaps: seq<Gap>, done: set<Id>, c: Claim)
    requires forall g | g in gaps && g.id in done :: g.status in DELIVERED
    requires ClaimOk(t, gaps, c)
    ensures ClaimOk(t, MarkDone(gaps, done), c)
  {
    hide Members, Statuses, MarkDone;
    MarkedMembers(gaps, done, c.package);
    MarkedOnly(gaps, done, c.package, InProgress);
    assert |GapIds(Members(MarkDone(gaps, done), c.package))| == |GapIds(Members(gaps, c.package))|;
  }

  lemma MarkedBlockerRowOk(t: TextRules, gaps: seq<Gap>, done: set<Id>, row: BlockerRow)
    requires BlockerRowOk(t, gaps, row)
    ensures BlockerRowOk(t, MarkDone(gaps, done), row)
  {
    hide Members, Statuses, MarkDone;
    MarkedMembers(gaps, done, BlockerKey(t, row));
    assert |GapIds(Members(MarkDone(gaps, done), BlockerKey(t, row)))| == |GapIds(Members(gaps, BlockerKey(t, row)))|;
  }

  lemma MarkedDevelopRowOk(t: TextRules, gaps: seq<Gap>, done: set<Id>, row: DevelopRow)
    requires forall g | g in gaps && g.id in done :: g.status in DELIVERED
    requires DevelopRowOk(t, gaps, row)
    ensures DevelopRowOk(t, MarkDone(gaps, done), row)
  {
    hide Members, Statuses, MarkDone;
    MarkedMembers(gaps, done, DevelopKey(t, row));
    MarkedDelivered(gaps, done, DevelopKey(t, row));
    assert |GapIds(Members(MarkDone(gaps, done), DevelopKey(t, row)))| == |GapIds(Members(gaps, DevelopKey(t, row)))|;
  }

  lemma MarkedAcyclic(gaps: seq<Gap>, done: set<Id>)
    requires NoDuplicates(GapIds(gaps)) && Acyclic(IndexGaps(gaps))
    ensures Acyclic(IndexGaps(MarkDone(gaps, done)))
  {
    MarkedIndex(gaps, done);
    forall path
      ensures !IsCycle(IndexGaps(MarkDone(gaps, done)), path)
    {
      if IsCycle(IndexGaps(MarkDone(gaps, done)), path) {
        assert IsCycle(IndexGaps(gaps), path);
      }
    }
  }

  lemma MarkedSelectionOk(packages: seq<Package>, g: Gap, done: set<Id>)
    requires SelectionOk(packages, g)
    ensures SelectionOk(packages, Mark(g, done))
  {
  }

  lemma MarkedSelectorOk(before: map<Id, Gap>, after: map<Id, Gap>, done: set<Id>, p: Package)
    requires MarkedMap(before, after, done) && SelectorOk(before, p)
    ensures SelectorOk(after, p)
  {
  }

  lemma SyncedLedgerOk(t: TextRules, d: Roadmap, m: Roadmap, rows: seq<MainRow>)
    requires GapLedgerOk(t, d) && Closable(d.gaps, DoneIds(m))
    ensures GapLedgerOk(t, Synced(d, m, rows))
  {
    hide GapRowOk, SelectionOk, SelectorOk;
    var done, r := DoneIds(m), Synced(d, m, rows);
    MarkedIds(d.gaps, done);
    MarkedDictionary(d.gaps, done);
    MarkedAtomic(d.gaps, done);
    var before, after := IndexGaps(d.gaps), IndexGaps(r.gaps);
    forall g | g in r.gaps
      ensures GapRowOk(t, after, g) && SelectionOk(r.packages, g)
    {
      var h := Unmarked(d.gaps, done, g);
      assert GapRowOk(t, before, h) && SelectionOk(d.packages, h);
      MarkedRowOk(t, before, after, done, h);
      MarkedSelectionOk(d.packages, h, done);
    }
    forall p | p in r.packages
      ensures SelectorOk(after, p)
    {
      MarkedSelectorOk(before, after, done, p);
    }
  }

  lemma SyncedClaimsOk(t: TextRules, d: Roadmap, m: Roadmap, rows: seq<MainRow>)
    requires ClaimsOk(t, d) && Closable(d.gaps, DoneIds(m))
    ensures ClaimsOk(t, Synced(d, m, rows))
  {
    hide ClaimOk;
    var done, r := DoneIds(m), Synced(d, m, rows);
    forall c | c in r.claims
      ensures ClaimOk(t, r.gaps, c)
    {
      MarkedClaimOk(t, d.gaps, done, c);
    }
    forall g | g in r.gaps && Statuses(r.gaps, g.package) == {InProgress}
      ensures exists c :: c in r.claims && c.package == g.package
    {
      MarkedOnly(d.gaps, done, g.package, InProgress);
      var h := Unmarked(d.gaps, done, g);
      assert Statuses(d.gaps, h.package) == {InProgress};
    }
  }

  lemma SyncedDevelopOk(t: TextRules, d: Roadmap, m: Roadmap, rows: seq<MainRow>)
    requires DevelopEvidenceOk(t, d) && Closable(d.gaps, DoneIds(m))
    ensures DevelopEvidenceOk(t, Synced(d, m, rows))
  {
    var done, r := DoneIds(m), Synced(d, m, rows);
    forall row | row in r.developEvidence
      ensures DevelopRowOk(t, r.gaps, row)
    {
      MarkedDevelopRowOk(t, d.gaps, done, row);
    }
    forall g | g in r.gaps && Statuses(r.gaps, g.package) <= DELIVERED
      ensures HasDevelopRow(t, r.developEvidence, g.package)
    {
      MarkedDelivered(d.gaps, done, g.package);
      var h := Unmarked(d.gaps, done, g);
      assert Statuses(d.gaps, h.package) <= DELIVERED;
    }
  }

  lemma SyncedMainRow(t: TextRules, d: Roadmap, m: Roadmap, rows: seq<MainRow>, row: MainRow)
    requires Syncable(t, d, m) && Closable(d.gaps, DoneIds(m)) && row in m.mainEvidence
    ensures MainRowOk(t, IndexGaps(Synced(d, m, rows).gaps), row)
  {
    var id := MainKey(t, row);
    MainRowMeansDone(t, m, row);
    var i := DoneRowOfMain(t, d, m, id);
    IndexFindsRow(d.gaps, d.gaps[i]);
    MarkedDictionary(d.gaps, DoneIds(m));
    MainRowChecked(t, m, row);
    MarkedMainRowOk(t, IndexGaps(m.gaps), IndexGaps(d.gaps), IndexGaps(Synced(d, m, rows).gaps), DoneIds(m), row);
  }

  lemma MainRowChecked(t: TextRules, r: Roadmap, row: MainRow)
    requires StructureOk(t, r) && row in r.mainEvidence
    ensures MainRowOk(t, IndexGaps(r.gaps), row)
  {
    assert Unfolded(r);
  }

  lemma DoneHasMainRow(t: TextRules, r: Roadmap, id: Id)
    requires StructureOk(t, r) && id in DoneIds(r)
    ensures HasMainRow(t, r.mainEvidence, id)
  {
    assert Unfolded(r);
    var g :| g in r.gaps && g.status == Done && g.id == id;
  }

  lemma SyncedMainOk(t: TextRules, d: Roadmap, m: Roadmap, rows: seq<MainRow>)
    requires Copies(t, d, m, rows) && Syncable(t, d, m) && Closable(d.gaps, DoneIds(m))
    ensures MainEvidenceOk(t, Synced(d, m, rows))
  {
    var done, r := DoneIds(m), Synced(d, m, rows);
    UniqueIds(t, m);
    forall row | row in r.mainEvidence
      ensures MainRowOk(t, IndexGaps(r.gaps), row)
    {
      SyncedMainRow(t, d, m, rows, row);
    }
    forall g | g in r.gaps && g.status == Done
      ensures HasMainRow(t, r.mainEvidence, g.id)
    {
      var h := Unmarked(d.gaps, done, g);
      assert g.id in done;
      DoneHasMainRow(t, m, g.id);
      var row :| row in m.mainEvidence && MainKey(t, row) == g.id;
      assert row in r.mainEvidence;
    }
  }

  lemma SyncedDecisionOk(t: TextRules, d: Roadmap, m: Roadmap, rows: seq<MainRow>)
    requires DecisionEvidenceOk(t, d) && Closable(d.gaps, DoneIds(m))
    ensures DecisionEvidenceOk(t, Synced(d, m, rows))
  {
    var done, r := DoneIds(m), Synced(d, m, rows);
    MarkedDictionary(d.gaps, done);
    var before, after := IndexGaps(d.gaps), IndexGaps(r.gaps);
    forall row | row in r.decisionEvidence
      ensures DecisionRowOk(t, after, row)
    {
      MarkedDecisionRowOk(t, before, after, done, row);
    }
    forall g | g in r.gaps && g.status in DECISION_STATUSES
      ensures HasDecisionRow(t, r.decisionEvidence, g)
    {
      var h := Unmarked(d.gaps, done, g);
      assert h == g;
    }
  }

  lemma MarkedTrailOk(t: TextRules, d: Roadmap, m: Roadmap, rows: seq<MainRow>, package: Id)
    requires BlockerTrailOk(t, d, package)
    requires forall g | g in d.gaps && g.id in DoneIds(m) :: g.status in DELIVERED
    ensures BlockerTrailOk(t, Synced(d, m, rows), package)
  {
    MarkedOnly(d.gaps, DoneIds(m), package, Blocked);
  }

  lemma SyncedBlockerOk(t: TextRules, d: Roadmap, m: Roadmap, rows: seq<MainRow>)
    requires BlockerEvidenceOk(t, d) && Closable(d.gaps, DoneIds(m))
    ensures BlockerEvidenceOk(t, Synced(d, m, rows))
  {
    var done, r := DoneIds(m), Synced(d, m, rows);
    forall row | row in r.blockerEvidence
      ensures BlockerRowOk(t, r.gaps, row)
    {
      MarkedBlockerRowOk(t, d.gaps, done, row);
    }
    forall g | g in r.gaps
      ensures BlockerTrailOk(t, r, g.package)
    {
      var h := Unmarked(d.gaps, done, g);
      MarkedTrailOk(t, d, m, rows, h.package);
    }
  }

  lemma SyncedStructureOk(t: TextRules, d: Roadmap, m: Roadmap, rows: seq<MainRow>)
    requires Copies(t, d, m, rows) && Syncable(t, d, m)
    ensures DocumentOk(t, Some(Synced(d, m, rows)))
  {
    SyncableCloses(t, d, m);
    SyncedMainOk(t, d, m, rows);
    assert Unfolded(d);
    SyncedLedgerOk(t, d, m, rows);
    MarkedAcyclic(d.gaps, DoneIds(m));
    SyncedClaimsOk(t, d, m, rows);
    SyncedDevelopOk(t, d, m, rows);
    SyncedDecisionOk(t, d, m, rows);
    SyncedBlockerOk(t, d, m, rows);
  }

  // ---- The copying step is accepted ---------------------------------------------------

  lemma RowOfDoneOnDevelop(t: TextRules, d: Roadmap, m: Roadmap, row: MainRow)
    requires Syncable(t, d, m) && row in m.mainEvidence && MainKey(t, row) in DoneIds(d)
    ensures row in d.mainEvidence
  {
    DoneHasMainRow(t, d, MainKey(t, row));
    var same :| same in d.mainEvidence && MainKey(t, same) == MainKey(t, row);
    UniqueIds(t, m);
    MainRowUnique(t, m, row, same);
  }

  lemma SyncedNewRow(t: TextRules, d: Roadmap, m: Roadmap, rows: seq<MainRow>, row: MainRow)
    requires Copies(t, d, m, rows) && Syncable(t, d, m) && row in m.mainEvidence && row !in d.mainEvidence
    ensures NewMainRowOk(t, d, Synced(d, m, rows), row)
  {
    var id := MainKey(t, row);
    MainRowMeansDone(t, m, row);
    var i := DoneRowOfMain(t, d, m, id);
    UniqueIds(t, d);
    IndexFindsRow(d.gaps, d.gaps[i]);
    MarkedIndex(d.gaps, DoneIds(m));
    DoneAt(d, id);
    if id in DoneIds(d) {
      RowOfDoneOnDevelop(t, d, m, row);
    }
  }

  /** The evidence that closes one GAP on develop. */
  lemma SyncedClosure(t: TextRules, d: Roadmap, m: Roadmap, g: Gap) returns (row: MainRow)
    requires Syncable(t, d, m) && NoDuplicates(GapIds(d.gaps)) && g in d.gaps
    requires g.id in DoneIds(m) && g.status != Done
    ensures g.status == InDevelop
    ensures g.id in IndexGaps(m.gaps) && IndexGaps(m.gaps)[g.id].status == Done
    ensures row in m.mainEvidence && row !in d.mainEvidence && MainKey(t, row) == g.id
  {
    hide Lineage, GapIds, StructureOk, IndexGaps, NoDuplicates;
    ClosedRowDelivered(t, d, m, g);
    DoneHasMainRow(t, m, g.id);
    row :| row in m.mainEvidence && MainKey(t, row) == g.id;
    UniqueIds(t, m);
    DoneAt(m, g.id);
    if row in d.mainEvidence {
      MainRowMeansDone(t, d, row);
      DoneAt(d, g.id);
      IndexFindsRow(d.gaps, g);
    }
  }

  lemma SyncedKeptGap(t: TextRules, d: Roadmap, m: Roadmap, rows: seq<MainRow>, g: Gap)
    requires Copies(t, d, m, rows) && Syncable(t, d, m) && NoDuplicates(GapIds(d.gaps)) && g in d.gaps
    ensures KeptGapOk(t, d, Synced(d, m, rows), Some(m), false, g, Mark(g, DoneIds(m)))
  {
    hide Syncable, GapIds;
    if g.id in DoneIds(m) && g.status != Done {
      var row := SyncedClosure(t, d, m, g);
      assert TrustedDone(t, Some(m), Synced(d, m, rows), g.id);
    }
  }

  lemma SyncedGapChanges(t: TextRules, d: Roadmap, m: Roadmap, rows: seq<MainRow>)
    requires Copies(t, d, m, rows) && Syncable(t, d, m)
    ensures GapChangesOk(t, d, Synced(d, m, rows), Some(m), false)
  {
    hide KeptGapOk, IndexGaps;
    UniqueIds(t, d);
    IndexHolds(d.gaps);
    MarkedIds(d.gaps, DoneIds(m));
    MarkedIndex(d.gaps, DoneIds(m));
    var before, after := IndexGaps(d.gaps), IndexGaps(Synced(d, m, rows).gaps);
    forall id | id in before && id in after
      ensures KeptGapOk(t, d, Synced(d, m, rows), Some(m), false, before[id], after[id])
    {
      SyncedKeptGap(t, d, m, rows, before[id]);
    }
  }

  lemma SyncedKeepsMain(t: TextRules, d: Roadmap, m: Roadmap, rows: seq<MainRow>)
    requires Copies(t, d, m, rows) && Syncable(t, d, m)
    ensures MainSyncOk(t, m, Synced(d, m, rows))
  {
    UniqueIds(t, d);
    UniqueIds(t, m);
    MarkedIndex(d.gaps, DoneIds(m));
    forall id | id in IndexGaps(m.gaps) && IndexGaps(m.gaps)[id].status == Done
      ensures id in IndexGaps(Synced(d, m, rows).gaps) && IndexGaps(Synced(d, m, rows).gaps)[id].status == Done
    {
      DoneAt(m, id);
      var i := DoneRowOfMain(t, d, m, id);
      IndexFindsRow(d.gaps, d.gaps[i]);
    }
  }

  lemma SyncedTransitionsOk(t: TextRules, d: Roadmap, m: Roadmap, rows: seq<MainRow>)
    requires Copies(t, d, m, rows) && Syncable(t, d, m)
    ensures TransitionsOk(t, d, Synced(d, m, rows), Some(m), false)
  {
    hide GapChangesOk, MainSyncOk, NewMainRowOk;
    var current := Synced(d, m, rows);
    SyncedGapChanges(t, d, m, rows);
    SyncedKeepsMain(t, d, m, rows);
    forall row | row in current.mainEvidence && row !in d.mainEvidence
      ensures NewMainRowOk(t, d, current, row)
    {
      SyncedNewRow(t, d, m, rows, row);
    }
    assert GapChangesOk(t, d, current, Some(m), false);
    assert NewEvidenceOk(t, d, current);
    assert ClaimsKeptOk(d, current);
    assert EvidenceAppended(d, current);
  }

  lemma SyncedPromotedGap(t: TextRules, d: Roadmap, m: Roadmap, i: nat)
    requires Syncable(t, d, m) && i < |m.gaps|
    ensures i < |d.gaps| && PromotedGapOk(m.gaps[i], Mark(d.gaps[i], DoneIds(m)))
  {
    assert SameRegistration(m.gaps[i], d.gaps[i]);
    assert GapIds(m.gaps)[i] == GapIds(d.gaps)[i];
    assert m.gaps[i] in m.gaps;
  }

  lemma SyncedAppendsToMain(t: TextRules, d: Roadmap, m: Roadmap)
    requires Syncable(t, d, m)
    ensures EvidenceAppended(m, Synced(d, m, m.mainEvidence))
    ensures GapIds(m.gaps) <= GapIds(Synced(d, m, m.mainEvidence).gaps)
  {
    MarkedIds(d.gaps, DoneIds(m));
  }

  lemma SyncedPromotesGaps(t: TextRules, d: Roadmap, m: Roadmap)
    requires Syncable(t, d, m)
    ensures var before, after := IndexGaps(m.gaps), IndexGaps(Synced(d, m, m.mainEvidence).gaps);
      forall id | id in before :: id in after && PromotedGapOk(before[id], after[id])
  {
    var current := Synced(d, m, m.mainEvidence);
    UniqueIds(t, d);
    UniqueIds(t, m);
    MarkedIds(d.gaps, DoneIds(m));
    IndexHolds(m.gaps);
    SyncedAppendsToMain(t, d, m);
    var before, after := IndexGaps(m.gaps), IndexGaps(current.gaps);
    hide IndexGaps, PromotedGapOk, Syncable, GapIds, DoneIds, MarkDone, Mark, EvidenceAppended;
    forall id | id in before
      ensures id in after && PromotedGapOk(before[id], after[id])
    {
      var i :| 0 <= i < |m.gaps| && m.gaps[i] == before[id];
      SamePosition(m, current, i);
      SyncedPromotedGap(t, d, m, i);
    }
  }

  lemma PromotionFrom(base: Roadmap, current: Roadmap, before: map<Id, Gap>, after: map<Id, Gap>)
    requires before == IndexGaps(base.gaps) && after == IndexGaps(current.gaps)
    requires GapIds(base.gaps) <= GapIds(current.gaps) && EvidenceAppended(base, current)
    requires forall id | id in before :: id in after && PromotedGapOk(before[id], after[id])
    ensures PromotionOk(Some(base), current, current)
  {
    hide IndexGaps, PromotedGapOk, GapIds, EvidenceAppended;
    assert before.Keys <= after.Keys;
  }

  lemma SyncedPromotionOk(t: TextRules, d: Roadmap, m: Roadmap)
    requires Syncable(t, d, m)
    ensures var current := Synced(d, m, m.mainEvidence); PromotionOk(Some(m), current, current)
  {
    hide *;
    SyncedAppendsToMain(t, d, m);
    SyncedPromotesGaps(t, d, m);
    var current := Synced(d, m, m.mainEvidence);
    PromotionFrom(m, current, IndexGaps(m.gaps), IndexGaps(current.gaps));
  }

  // ---- Reachable states ------------------------------------------------------------------

  /** Develop copies main's closures, listing main's rows as `rows`. */
  function SyncStep(s: System, rows: seq<MainRow>): System
    requires s.develops != [] && s.mains != []
  {
    s.(develops := s.develops + [Synced(s.Develop(), s.mains[|s.mains| - 1], rows)])
  }

  function PromotionStep(s: System): System
    requires s.develops != []
  {
    s.(mains := s.mains + [s.Develop()])
  }

  lemma ReachableIsSyncable(t: TextRules, run: seq<System>)
    requires Run(t, run) && run[0].Nonempty() && Descended(t, run[0])
    ensures var s := run[|run| - 1];
      s.Nonempty() && (s.mains != [] ==> Syncable(t, s.Develop(), s.mains[|s.mains| - 1]))
  {
    RunSafe(t, run, |run| - 1);
    RunDescends(t, run, |run| - 1);
    var s := run[|run| - 1];
    assert DocumentOk(t, Some(s.develops[|s.develops| - 1]));
    assert s.mains != [] ==> DocumentOk(t, Some(s.mains[|s.mains| - 1]));
  }

  lemma FeatureAccepted(t: TextRules, s: System, current: Roadmap)
    requires s.develops != [] && s.mains != []
    requires DocumentOk(t, Some(s.Develop())) && DocumentOk(t, s.Main()) && DocumentOk(t, Some(current))
    requires TransitionsOk(t, s.Develop(), current, s.Main(), false)
    ensures FeatureStep(t, s, s.(develops := s.develops + [current]), PullRequest, s.Main())
  {
  }

  /** In any reachable state a feature step may list main's closure rows in any order
      that begins with the rows develop already has: the sync check accepts them all. */
  lemma AnyOrderAccepted(t: TextRules, run: seq<System>, rows: seq<MainRow>)
    requires Run(t, run) && run[0].Nonempty() && Descended(t, run[0])
    requires var s := run[|run| - 1];
      s.develops != [] && s.mains != [] && Copies(t, s.Develop(), s.mains[|s.mains| - 1], rows)
    ensures var s := run[|run| - 1]; FeatureStep(t, s, SyncStep(s, rows), PullRequest, s.Main())
  {
    ReachableIsSyncable(t, run);
    var s := run[|run| - 1];
    var d, m := s.Develop(), s.mains[|s.mains| - 1];
    hide Lineage, StructureOk, TransitionsOk, Run, Copies, Synced, DoneIds;
    SyncedStructureOk(t, d, m, rows);
    SyncedTransitionsOk(t, d, m, rows);
    FeatureAccepted(t, s, Synced(d, m, rows));
  }

  lemma OwnRowsAreCopies(t: TextRules, d: Roadmap, m: Roadmap)
    requires Syncable(t, d, m) && d.mainEvidence <= m.mainEvidence
    ensures Copies(t, d, m, m.mainEvidence)
  {
    UniqueIds(t, m);
  }

  lemma PromotionStepAccepted(t: TextRules, s: System)
    requires s.develops != [] && DocumentOk(t, Some(s.Develop())) && DocumentOk(t, s.Main())
    requires PromotionOk(s.Main(), s.Develop(), s.Develop())
    ensures MainStep(t, s, PromotionStep(s), PullRequest, Some(s.Develop()))
  {
    hide StructureOk, TransitionsOk, PromotionOk, Parsed, TrackingOk;
  }

  /** After copying in main's own order, promoting the result is accepted too. */
  lemma PromotionAccepted(t: TextRules, run: seq<System>)
    requires Run(t, run) && run[0].Nonempty() && Descended(t, run[0])
    requires var s := run[|run| - 1]; s.develops != [] && s.mains != [] && Rows(s) <= s.MainRows()
    ensures var s := run[|run| - 1]; var synced := SyncStep(s, s.MainRows());
      && FeatureStep(t, s, synced, PullRequest, s.Main())
      && MainStep(t, synced, PromotionStep(synced), PullRequest, Some(synced.Develop()))
  {
    assert run != [];
    hide Lineage, StructureOk, TransitionsOk, PromotionOk, Run, Copies, Synced, Syncable, FeatureStep, MainStep, Accepted;
    ReachableIsSyncable(t, run);
    var s := run[|run| - 1];
    var d, m := s.Develop(), s.mains[|s.mains| - 1];
    OwnRowsAreCopies(t, d, m);
    AnyOrderAccepted(t, run, m.mainEvidence);
    SyncedDocumentOk(t, d, m);
    SyncedPromotionOk(t, d, m);
    PromotionStepAccepted(t, SyncStep(s, m.mainEvidence));
  }

  lemma SyncedDocumentOk(t: TextRules, d: Roadmap, m: Roadmap)
    requires Syncable(t, d, m) && Copies(t, d, m, m.mainEvidence)
    ensures DocumentOk(t, Some(Synced(d, m, m.mainEvidence))) && DocumentOk(t, Some(m))
  {
    hide StructureOk, Copies, Synced, Lineage, Parsed;
    SyncedStructureOk(t, d, m, m.mainEvidence);
  }

  ghost predicate Promotes(t: TextRules, s: System, s': System) {
    exists event, trustedDevelop ::
      MainStep(t, s, s', event, trustedDevelop)
      && ExactPromotion(Main, event, s'.mains[|s.mains|], trustedDevelop)
  }

  /** The run can be continued to a point where develop is promoted onto main. */
  ghost predicate PromotionAhead(t: TextRules, run: seq<System>) {
    exists longer: seq<System>, k ::
      run <= longer && Run(t, longer) && 0 < |run| <= k < |longer| && Promotes(t, longer[k - 1], longer[k])
  }

  lemma RunContinues(t: TextRules, run: seq<System>, next: System)
    requires Run(t, run) && Step(t, run[|run| - 1], next)
    ensures Run(t, run + [next])
  {
    var longer := run + [next];
    forall i, j | 0 <= i < j < |longer| && j == i + 1
      ensures Step(t, longer[i], longer[j])
    {
      if j < |run| {
        assert Step(t, run[i], run[j]);
      }
    }
  }

  lemma OutOfOrderMeansNoPromotion(t: TextRules, run: seq<System>, longer: seq<System>, k: nat)
    requires Run(t, longer) && run != [] && run <= longer && |run| <= k < |longer|
    requires run[|run| - 1].mains != [] && OutOfOrder(run[|run| - 1])
    ensures !Promotes(t, longer[k - 1], longer[k])
  {
    hide Run, Promotes, OutOfOrder;
    assert longer[|run| - 1] == run[|run| - 1];
    HistoryGrows(t, longer, |run| - 1, k - 1);
    if Promotes(t, longer[k - 1], longer[k]) {
      var doc := PromotedDocument(t, longer[k - 1], longer[k]);
      NoLaterPromotion(t, longer, |run| - 1, k - 1, doc);
    }
  }

  lemma PromotedDocument(t: TextRules, s: System, s': System) returns (doc: Roadmap)
    requires Promotes(t, s, s')
    ensures doc in s.develops && PromotionOk(s.Main(), doc, doc)
  {
    var event, trustedDevelop :| MainStep(t, s, s', event, trustedDevelop)
      && ExactPromotion(Main, event, s'.mains[|s.mains|], trustedDevelop);
    doc := trustedDevelop.value;
  }

  lemma TwoStepsAhead(t: TextRules, run: seq<System>, synced: System, promoted: System)
    requires Run(t, run) && Step(t, run[|run| - 1], synced) && Step(t, synced, promoted)
    requires Promotes(t, synced, promoted)
    ensures PromotionAhead(t, run)
  {
    assert |run| > 0;
    hide *;
    RunContinues(t, run, synced);
    RunContinues(t, run + [synced], promoted);
    AheadBy(t, run, run + [synced] + [promoted], |run| + 1);
  }

  lemma AheadBy(t: TextRules, run: seq<System>, longer: seq<System>, k: nat)
    requires run <= longer && Run(t, longer) && 0 < |run| <= k < |longer| && Promotes(t, longer[k - 1], longer[k])
    ensures PromotionAhead(t, run)
  {
    hide Run, Promotes;
  }

  lemma OrderlyMeansPromotionAhead(t: TextRules, run: seq<System>)
    requires Run(t, run) && run[0].Nonempty() && Descended(t, run[0])
    requires var s := run[|run| - 1]; s.develops != [] && s.mains != [] && Rows(s) <= s.MainRows()
    ensures PromotionAhead(t, run)
  {
    assert |run| > 0;
    hide Run, FeatureStep, MainStep, Descended, Synced, Rows, PromotionAhead;
    PromotionAccepted(t, run);
    var s := run[|run| - 1];
    var synced := SyncStep(s, s.MainRows());
    PromotedBy(t, synced);
    TwoStepsAhead(t, run, synced, PromotionStep(synced));
  }

  lemma PromotedBy(t: TextRules, s: System)
    requires s.develops != [] && MainStep(t, s, PromotionStep(s), PullRequest, Some(s.Develop()))
    ensures Promotes(t, s, PromotionStep(s))
  {
    hide MainStep;
    var s' := PromotionStep(s);
    assert ExactPromotion(Main, PullRequest, s'.mains[|s.mains|], Some(s.Develop()));
  }

  /** A promotion can still be reached exactly when every past step of develop took
      main's closure rows in main's order. */
  lemma PromotionAheadIffOrderly(t: TextRules, run: seq<System>)
    requires Run(t, run) && run[0].Nonempty() && Descended(t, run[0]) && run[|run| - 1].mains != []
    ensures forall i | 0 <= i < |run| :: run[i].develops != []
    ensures PromotionAhead(t, run) <==> Orderly(t, run)
  {
    RunNonempty(t, run);
    PrefixIffOrderly(t, run, |run| - 1);
    assert run[..|run| - 1 + 1] == run;
    if Orderly(t, run) {
      OrderlyMeansPromotionAhead(t, run);
    } else {
      forall longer: seq<System>, k | run <= longer && Run(t, longer) && |run| <= k < |longer|
        ensures !Promotes(t, longer[k - 1], longer[k])
      {
        OutOfOrderMeansNoPromotion(t, run, longer, k);
      }
    }
  }
}
