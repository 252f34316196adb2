/** The ledger on its two branches. Develop moves by feature steps, which may be
    checked against any past state of main; main moves by closure tracking and by
    promotion of any past state of develop. */
module RoadmapBranches {
  import opened Prelude
  import opened RoadmapModel
  import opened RoadmapRules
  import opened RoadmapDelivery

  /** Every document each branch has held, oldest first. Main may start without one. */
  datatype System = System(develops: seq<Roadmap>, mains: seq<Roadmap>) {
    ghost predicate Nonempty() { develops != [] }

    function Develop(): Roadmap
      requires develops != []
    {
      develops[|develops| - 1]
    }

    function Main(): Option<Roadmap> {
      if mains == [] then None else Some(mains[|mains| - 1])
    }

    function MainDone(): set<Id> {
      if mains == [] then {} else DoneIds(mains[|mains| - 1])
    }

    function MainRows(): seq<MainRow> {
      if mains == [] then [] else mains[|mains| - 1].mainEvidence
    }
  }

  function DoneIds(r: Roadmap): set<Id> {
    set g | g in r.gaps && g.status == Done :: g.id
  }

  ghost predicate Snapshot(doc: Option<Roadmap>, history: seq<Roadmap>) {
    doc.Some? ==> doc.value in history
  }

  ghost predicate FeatureStep(t: TextRules, s: System, s': System, event: Event, trustedMain: Option<Roadmap>) {
    && s.Nonempty()
    && s'.mains == s.mains
    && |s'.develops| == |s.develops| + 1
    && s'.develops[..|s.develops|] == s.develops
    && Snapshot(trustedMain, s.mains)
    && Accepted(t, Develop, event, Some(s.Develop()), s'.develops[|s.develops|], trustedMain, None)
  }

  ghost predicate MainStep(t: TextRules, s: System, s': System, event: Event, trustedDevelop: Option<Roadmap>) {
    && s.Nonempty()
    && s'.develops == s.develops
    && |s'.mains| == |s.mains| + 1
    && s'.mains[..|s.mains|] == s.mains
    && Snapshot(trustedDevelop, s.develops)
    && Accepted(t, Main, event, s.Main(), s'.mains[|s.mains|], None, trustedDevelop)
  }

  ghost predicate Step(t: TextRules, s: System, s': System) {
    || (exists event, trustedMain :: FeatureStep(t, s, s', event, trustedMain))
    || (exists event, trustedDevelop :: MainStep(t, s, s', event, trustedDevelop))
  }

  /** Develop starts well formed with nothing DONE; main starts well formed or absent. */
  ghost predicate Initial(t: TextRules, s: System) {
    && |s.develops| == 1
    && |s.mains| <= 1
    && DocumentOk(t, Some(s.develops[0]))
    && DocumentOk(t, s.Main())
    && DoneIds(s.develops[0]) == {}
  }

  ghost predicate Run(t: TextRules, run: seq<System>) {
    && run != []
    && Initial(t, run[0])
    && (forall i, j | 0 <= i < j < |run| && j == i + 1 :: Step(t, run[i], run[j]))
  }

  // ---- One feature step -------------------------------------------------------------

  lemma DoneAt(r: Roadmap, id: Id)
    requires NoDuplicates(GapIds(r.gaps))
    ensures id in DoneIds(r) <==> id in IndexGaps(r.gaps) && IndexGaps(r.gaps)[id].status == Done
  {
    IndexHolds(r.gaps);
    if id in DoneIds(r) {
      var g :| g in r.gaps && g.status == Done && g.id == id;
      IndexFindsRow(r.gaps, g);
    }
  }

  lemma ExtendsKeepsDone(base: Roadmap, current: Roadmap)
    requires Extends(base, current)
    ensures DoneIds(base) <= DoneIds(current)
  {
    forall id | id in DoneIds(base)
      ensures id in DoneIds(current)
    {
      var g :| g in base.gaps && g.status == Done && g.id == id;
      var i :| 0 <= i < |base.gaps| && base.gaps[i] == g;
      assert GapIds(base.gaps)[i] == GapIds(current.gaps)[i];
      assert PromotedGapOk(base.gaps[i], current.gaps[i]);
      assert current.gaps[i] in current.gaps;
    }
  }

  /** A GAP newly DONE on develop is DONE on the trusted main. */
  lemma NewlyDoneIsTrusted(t: TextRules, base: Roadmap, current: Roadmap, trustedMain: Option<Roadmap>, id: Id)
    requires NoDuplicates(GapIds(base.gaps)) && NoDuplicates(GapIds(current.gaps))
    requires GapChangesOk(t, base, current, trustedMain, false)
    requires id in DoneIds(current) && id !in DoneIds(base)
    ensures TrustedDone(t, trustedMain, current, id)
  {
    DoneAt(base, id);
    DoneAt(current, id);
    IndexHolds(current.gaps);
    var before, after := IndexGaps(base.gaps), IndexGaps(current.gaps);
    hide IndexGaps;
    assert id in before || NewGapOk(base, after[id]);
    assert KeptGapOk(t, base, current, trustedMain, false, before[id], after[id]);
  }

  lemma GapChanges(
    t: TextRules, base: Roadmap, current: Roadmap, trustedMain: Option<Roadmap>, allowDone: bool)
    requires TransitionsOk(t, base, current, trustedMain, allowDone)
    ensures GapChangesOk(t, base, current, trustedMain, allowDone)
  {
    assert Unfolded(current);
  }

  lemma MainSync(t: TextRules, base: Roadmap, current: Roadmap, main: Roadmap, allowDone: bool)
    requires TransitionsOk(t, base, current, Some(main), allowDone)
    ensures MainSyncOk(t, main, current)
  {
    assert Unfolded(current);
  }

  lemma MainRowMeansDone(t: TextRules, r: Roadmap, row: MainRow)
    requires StructureOk(t, r) && row in r.mainEvidence
    ensures MainKey(t, row) in DoneIds(r)
  {
    UniqueIds(t, r);
    DoneAt(r, MainKey(t, row));
    hide IndexGaps;
    assert Unfolded(r);
    assert MainRowOk(t, IndexGaps(r.gaps), row);
  }

  /** The DONE set a feature step leaves: exactly what develop had, joined with what
      the trusted main snapshot has. */
  lemma FeatureDone(t: TextRules, base: Roadmap, current: Roadmap, trustedMain: Option<Roadmap>)
    requires StructureOk(t, base) && StructureOk(t, current)
    requires trustedMain.Some? ==> StructureOk(t, trustedMain.value)
    requires TransitionsOk(t, base, current, trustedMain, false)
    ensures DoneIds(current) == DoneIds(base) + if trustedMain.Some? then DoneIds(trustedMain.value) else {}
    ensures trustedMain.Some? ==>
      forall row | row in trustedMain.value.mainEvidence :: row in current.mainEvidence
  {
    UniqueIds(t, base);
    UniqueIds(t, current);
    TransitionsExtend(t, base, current, trustedMain, false);
    ExtendsKeepsDone(base, current);
    GapChanges(t, base, current, trustedMain, false);
    forall id | id in DoneIds(current) && id !in DoneIds(base)
      ensures trustedMain.Some? && id in DoneIds(trustedMain.value)
    {
      NewlyDoneIsTrusted(t, base, current, trustedMain, id);
      UniqueIds(t, trustedMain.value);
      DoneAt(trustedMain.value, id);
    }
    if trustedMain.Some? {
      SyncCarriesMain(t, base, current, trustedMain.value);
    }
  }

  lemma SyncCarriesMain(t: TextRules, base: Roadmap, current: Roadmap, main: Roadmap)
    requires StructureOk(t, current) && StructureOk(t, main)
    requires TransitionsOk(t, base, current, Some(main), false)
    ensures DoneIds(main) <= DoneIds(current)
    ensures forall row | row in main.mainEvidence :: row in current.mainEvidence
  {
    UniqueIds(t, current);
    UniqueIds(t, main);
    MainSync(t, base, current, main, false);
    forall id | id in DoneIds(main)
      ensures id in DoneIds(current)
    {
      DoneAt(main, id);
      DoneAt(current, id);
    }
    forall row | row in main.mainEvidence
      ensures row in current.mainEvidence
    {
      MainRowMeansDone(t, main, row);
      DoneAt(main, MainKey(t, row));
    }
  }

  lemma MainRowUnique(t: TextRules, r: Roadmap, a: MainRow, b: MainRow)
    requires NoDuplicates(MainKeys(t, r.mainEvidence))
    requires a in r.mainEvidence && b in r.mainEvidence && MainKey(t, a) == MainKey(t, b)
    ensures a == b
  {
    var i :| 0 <= i < |r.mainEvidence| && r.mainEvidence[i] == a;
    var j :| 0 <= j < |r.mainEvidence| && r.mainEvidence[j] == b;
    assert MainKeys(t, r.mainEvidence)[i] == MainKeys(t, r.mainEvidence)[j];
  }

  lemma NewMainRow(
    t: TextRules, base: Roadmap, current: Roadmap, trustedMain: Option<Roadmap>, allowDone: bool, row: MainRow)
    requires TransitionsOk(t, base, current, trustedMain, allowDone)
    requires row in current.mainEvidence && row !in base.mainEvidence
    ensures NewMainRowOk(t, base, current, row)
  {
    assert Unfolded(current);
  }

  /** A closure row is new on develop only by being one of the trusted main's rows. */
  lemma FeatureRows(t: TextRules, base: Roadmap, current: Roadmap, trustedMain: Option<Roadmap>, row: MainRow)
    requires StructureOk(t, base) && StructureOk(t, current)
    requires TransitionsOk(t, base, current, trustedMain, false)
    requires row in current.mainEvidence && row !in base.mainEvidence
    ensures trustedMain.Some? && row in trustedMain.value.mainEvidence
  {
    var id := MainKey(t, row);
    UniqueIds(t, base);
    UniqueIds(t, current);
    NewMainRow(t, base, current, trustedMain, false, row);
    DoneAt(base, id);
    DoneAt(current, id);
    GapChanges(t, base, current, trustedMain, false);
    NewlyDoneIsTrusted(t, base, current, trustedMain, id);
    var same :| same in current.mainEvidence && same in trustedMain.value.mainEvidence && MainKey(t, same) == id;
    MainRowUnique(t, current, row, same);
  }

  // ---- Safety of the two branches -------------------------------------------------------

  /** Each branch's history is a chain of well-formed, growing documents. */
  ghost predicate Chain(t: TextRules, docs: seq<Roadmap>) {
    && (forall i | 0 <= i < |docs| :: DocumentOk(t, Some(docs[i])))
    && (forall i, j | 0 <= i <= j < |docs| :: Extends(docs[i], docs[j]))
  }

  /** What is closed on develop is closed on main, by the same rows. */
  ghost predicate ClosedOnMain(s: System)
    requires s.Nonempty()
  {
    && DoneIds(s.Develop()) <= s.MainDone()
    && (forall row | row in s.Develop().mainEvidence :: row in s.MainRows())
  }

  ghost predicate Safe(t: TextRules, s: System) {
    && s.Nonempty()
    && Chain(t, s.develops)
    && Chain(t, s.mains)
    && ClosedOnMain(s)
  }

  lemma ChainGrows(t: TextRules, docs: seq<Roadmap>, next: Roadmap)
    requires Chain(t, docs) && DocumentOk(t, Some(next))
    requires docs != [] ==> Extends(docs[|docs| - 1], next)
    ensures Chain(t, docs + [next])
  {
    var more := docs + [next];
    ExtendsReflexive(next);
    forall i, j | 0 <= i <= j < |more|
      ensures Extends(more[i], more[j])
    {
      if i < |docs| == j {
        ExtendsTransitive(docs[i], docs[|docs| - 1], next);
      }
    }
  }

  /** An older main is contained in the present one. */
  lemma OlderMain(t: TextRules, s: System, past: Roadmap)
    requires Chain(t, s.mains) && past in s.mains
    ensures StructureOk(t, past)
    ensures DoneIds(past) <= s.MainDone() && past.mainEvidence <= s.MainRows()
  {
    var i :| 0 <= i < |s.mains| && s.mains[i] == past;
    assert Extends(past, s.mains[|s.mains| - 1]);
    assert DocumentOk(t, Some(s.mains[i]));
    ExtendsKeepsDone(past, s.mains[|s.mains| - 1]);
  }

  lemma FeatureStepCloses(t: TextRules, s: System, s': System, event: Event, trustedMain: Option<Roadmap>)
    requires Chain(t, s.mains) && s.Nonempty() && ClosedOnMain(s) && FeatureStep(t, s, s', event, trustedMain)
    ensures s'.Nonempty() && ClosedOnMain(s')
  {
    var base, current := s.Develop(), s'.develops[|s.develops|];
    hide StructureOk, TransitionsOk, Chain, DoneIds, Parsed, TrackingOk, PromotionOk;
    FeatureDone(t, base, current, trustedMain);
    if trustedMain.Some? {
      OlderMain(t, s, trustedMain.value);
    }
    forall row | row in current.mainEvidence
      ensures row in s'.MainRows()
    {
      if row !in base.mainEvidence {
        FeatureRows(t, base, current, trustedMain, row);
        PrefixMember(trustedMain.value.mainEvidence, s.MainRows(), row);
      }
    }
  }

  lemma FeatureStepSafe(t: TextRules, s: System, s': System, event: Event, trustedMain: Option<Roadmap>)
    requires Safe(t, s) && FeatureStep(t, s, s', event, trustedMain)
    ensures Safe(t, s')
  {
    var base, current := s.Develop(), s'.develops[|s.develops|];
    assert BranchStep(t, Develop, base, current);
    StepExtends(t, Develop, base, current);
    assert s'.develops == s.develops + [current];
    ChainGrows(t, s.develops, current);
    FeatureStepCloses(t, s, s', event, trustedMain);
  }

  lemma MainStepExtends(t: TextRules, s: System, s': System, event: Event, trustedDevelop: Option<Roadmap>)
    requires MainStep(t, s, s', event, trustedDevelop)
    ensures var current := s'.mains[|s.mains|];
      DocumentOk(t, Some(current)) && (s.mains != [] ==> Extends(s.mains[|s.mains| - 1], current))
  {
    if s.mains != [] {
      var base, current := s.mains[|s.mains| - 1], s'.mains[|s.mains|];
      assert BranchStep(t, Main, base, current);
      StepExtends(t, Main, base, current);
    }
  }

  lemma ClosedOnGrownMain(s: System, s': System)
    requires s.Nonempty() && ClosedOnMain(s) && s'.develops == s.develops && s'.mains != []
    requires s.mains != [] ==> Extends(s.mains[|s.mains| - 1], s'.mains[|s'.mains| - 1])
    ensures ClosedOnMain(s')
  {
    if s.mains != [] {
      var base, current := s.mains[|s.mains| - 1], s'.mains[|s'.mains| - 1];
      ExtendsKeepsDone(base, current);
      forall row | row in s.MainRows()
        ensures row in s'.MainRows()
      {
        PrefixMember(base.mainEvidence, current.mainEvidence, row);
      }
    }
  }

  lemma MainStepSafe(t: TextRules, s: System, s': System, event: Event, trustedDevelop: Option<Roadmap>)
    requires Safe(t, s) && MainStep(t, s, s', event, trustedDevelop)
    ensures Safe(t, s')
  {
    var current := s'.mains[|s.mains|];
    assert s'.mains == s.mains + [current];
    MainStepExtends(t, s, s', event, trustedDevelop);
    ChainGrows(t, s.mains, current);
    ClosedOnGrownMain(s, s');
  }

  lemma InitialSafe(t: TextRules, s: System)
    requires Initial(t, s)
    ensures Safe(t, s)
  {
    var r := s.develops[0];
    ExtendsReflexive(r);
    if s.mains != [] {
      ExtendsReflexive(s.mains[0]);
    }
    forall row | row in r.mainEvidence
      ensures false
    {
      MainRowMeansDone(t, r, row);
    }
  }

  lemma StepSafe(t: TextRules, s: System, s': System)
    requires Safe(t, s) && Step(t, s, s')
    ensures Safe(t, s')
  {
    if event, trustedMain :| FeatureStep(t, s, s', event, trustedMain) {
      FeatureStepSafe(t, s, s', event, trustedMain);
    } else {
      var event, trustedDevelop :| MainStep(t, s, s', event, trustedDevelop);
      MainStepSafe(t, s, s', event, trustedDevelop);
    }
  }

  lemma {:induction false} RunSafe(t: TextRules, run: seq<System>, i: nat)
    requires Run(t, run) && i < |run|
    ensures Safe(t, run[i])
  {
    if i == 0 {
      InitialSafe(t, run[0]);
    } else {
      RunSafe(t, run, i - 1);
      StepSafe(t, run[i - 1], run[i]);
    }
  }

  lemma {:induction false} HistoryGrows(t: TextRules, run: seq<System>, i: nat, j: nat)
    requires Run(t, run) && i <= j < |run|
    ensures run[i].develops <= run[j].develops && run[i].mains <= run[j].mains
    decreases j
  {
    if i < j {
      HistoryGrows(t, run, i, j - 1);
      assert Step(t, run[j - 1], run[j]);
    }
  }

  /** In every run, at every point: a GAP DONE on develop is DONE on main and shown
      there by the same closure row, and neither branch ever loses a DONE. */
  lemma TwoBranchSafety(t: TextRules, run: seq<System>, i: nat, j: nat)
    requires Run(t, run) && i <= j < |run|
    ensures run[i].Nonempty() && run[j].Nonempty()
    ensures ClosedOnMain(run[j])
    ensures DoneIds(run[i].Develop()) <= DoneIds(run[j].Develop())
    ensures run[i].MainDone() <= run[j].MainDone()
  {
    RunSafe(t, run, i);
    RunSafe(t, run, j);
    HistoryGrows(t, run, i, j);
    var d, m := run[j].develops, run[j].mains;
    assert run[i].Develop() == d[|run[i].develops| - 1];
    assert Extends(run[i].Develop(), run[j].Develop());
    ExtendsKeepsDone(run[i].Develop(), run[j].Develop());
    if run[i].mains != [] {
      assert run[i].mains[|run[i].mains| - 1] == m[|run[i].mains| - 1];
      ExtendsKeepsDone(m[|run[i].mains| - 1], m[|m| - 1]);
    }
  }
}
