/** What main is at any moment: a past document of develop in which some delivered GAPs have
    been closed. */
module RoadmapMainline {
  import opened Prelude
  import opened RoadmapModel
  import opened RoadmapRules
  import opened RoadmapDelivery
  import opened RoadmapBranches

  /** `m` is `d` but for GAPs that were IN_DEVELOP and are DONE, and their closure rows. */
  predicate ClosedFrom(d: Roadmap, m: Roadmap) {
    && |m.gaps| == |d.gaps|
    && (forall i | 0 <= i < |d.gaps| ::
          m.gaps[i] == d.gaps[i] || (d.gaps[i].status == InDevelop && m.gaps[i] == d.gaps[i].(status := Done)))
    && d.mainEvidence <= m.mainEvidence
    && m == d.(gaps := m.gaps, mainEvidence := m.mainEvidence)
  }

  lemma ClosedFromOn(d: Roadmap, m: Roadmap, next: Roadmap)
    requires ClosedFrom(d, m) && ClosedFrom(m, next)
    ensures ClosedFrom(d, next)
  {
  }

  lemma TrackedIsClosed(t: TextRules, m: Roadmap, next: Roadmap)
    requires StructureOk(t, m) && StructureOk(t, next) && TrackingOk(m, next) && EvidenceAppended(m, next)
    ensures ClosedFrom(m, next)
  {
    UniqueIds(t, m);
    UniqueIds(t, next);
    hide StructureOk;
    forall i | 0 <= i < |m.gaps|
      ensures GapIds(m.gaps)[i] == GapIds(next.gaps)[i]
    {
      assert SameOutsideStatus(m.gaps[i], next.gaps[i]);
    }
    assert GapIds(m.gaps) == GapIds(next.gaps);
    forall i | 0 <= i < |m.gaps|
      ensures next.gaps[i] == m.gaps[i] || (m.gaps[i].status == InDevelop && next.gaps[i] == m.gaps[i].(status := Done))
    {
      assert SameOutsideStatus(m.gaps[i], next.gaps[i]);
      SamePosition(m, next, i);
    }
  }

  ghost predicate FromDevelop(s: System) {
    s.mains != [] ==> exists d :: d in s.develops && ClosedFrom(d, s.mains[|s.mains| - 1])
  }

  /** A step on main promotes a past document of develop or closes GAPs of its own. */
  lemma MainStepIs(t: TextRules, s: System, s': System, event: Event, trustedDevelop: Option<Roadmap>)
    requires MainStep(t, s, s', event, trustedDevelop)
    ensures var next := s'.mains[|s.mains|];
      next in s.develops || (s.mains != [] && ClosedFrom(s.mains[|s.mains| - 1], next))
  {
    hide StructureOk, TransitionsOk, TrackingOk, ClosedFrom, Parsed;
    var next := s'.mains[|s.mains|];
    if !ExactPromotion(Main, event, next, trustedDevelop) {
      var m := s.mains[|s.mains| - 1];
      assert StructureOk(t, m) && StructureOk(t, next) && TrackingOk(m, next);
      TablesAppended(t, m, next);
      TrackedIsClosed(t, m, next);
    }
  }

  lemma TablesAppended(t: TextRules, base: Roadmap, current: Roadmap)
    requires TransitionsOk(t, base, current, None, true)
    ensures EvidenceAppended(base, current)
  {
    assert Unfolded(current);
  }

  lemma MainStepFromDevelop(t: TextRules, s: System, s': System, event: Event, trustedDevelop: Option<Roadmap>)
    requires FromDevelop(s) && MainStep(t, s, s', event, trustedDevelop)
    ensures FromDevelop(s')
  {
    MainStepIs(t, s, s', event, trustedDevelop);
    var next := s'.mains[|s.mains|];
    assert |s'.mains| == |s.mains| + 1 && s'.develops == s.develops;
    hide MainStep;
    if next in s.develops {
      assert ClosedFrom(next, next);
    } else {
      hide ClosedFrom;
      var d :| d in s.develops && ClosedFrom(d, s.mains[|s.mains| - 1]);
      ClosedFromOn(d, s.mains[|s.mains| - 1], next);
    }
  }

  lemma StepFromDevelop(t: TextRules, s: System, s': System)
    requires FromDevelop(s) && Step(t, s, s')
    ensures FromDevelop(s')
  {
    hide StructureOk, TransitionsOk, ClosedFrom, Accepted;
    if event, trustedMain :| FeatureStep(t, s, s', event, trustedMain) {
      if s.mains != [] {
        var d :| d in s.develops && ClosedFrom(d, s.mains[|s.mains| - 1]);
        PrefixMember(s.develops, s'.develops, d);
      }
    } else {
      var event, trustedDevelop :| MainStep(t, s, s', event, trustedDevelop);
      MainStepFromDevelop(t, s, s', event, trustedDevelop);
    }
  }

  /** In every run that starts with no ledger on main, or with one closed from develop's, main
      is at every point some document develop has held, with GAPs that were IN_DEVELOP there
      closed, their rows added, and nothing else changed. */
  lemma {:induction false} MainIsDevelopClosed(t: TextRules, run: seq<System>, n: nat)
    requires Run(t, run) && n < |run| && FromDevelop(run[0])
    ensures FromDevelop(run[n])
  {
    if n > 0 {
      MainIsDevelopClosed(t, run, n - 1);
      assert Step(t, run[n - 1], run[n]);
      hide Step, FromDevelop;
      StepFromDevelop(t, run[n - 1], run[n]);
    }
  }

  /** The documents develop has held form a run of the develop branch. */
  lemma {:induction false} DevelopIsBranchRun(t: TextRules, run: seq<System>, n: nat)
    requires Run(t, run) && n < |run|
    ensures BranchRun(t, Develop, run[n].develops)
  {
    hide StructureOk, TransitionsOk;
    if n > 0 {
      DevelopIsBranchRun(t, run, n - 1);
      assert Step(t, run[n - 1], run[n]);
      hide Run;
      DevelopGrows(t, run[n - 1], run[n]);
    }
  }

  lemma DevelopGrows(t: TextRules, s: System, s': System)
    requires BranchRun(t, Develop, s.develops) && Step(t, s, s')
    ensures BranchRun(t, Develop, s'.develops)
  {
    hide StructureOk, TransitionsOk, Accepted;
    if event, trustedMain :| FeatureStep(t, s, s', event, trustedMain) {
      var docs, more := s.develops, s'.develops;
      assert more[|docs| - 1] == docs[|docs| - 1];
      assert BranchStep(t, Develop, more[|docs| - 1], more[|docs|]);
      hide BranchStep;
      forall i, j | 0 <= i < j < |more| && j == i + 1
        ensures BranchStep(t, Develop, more[i], more[j])
      {
        if j < |docs| {
          assert BranchStep(t, Develop, docs[i], docs[j]);
        }
      }
      assert more[0] == docs[0];
    }
  }
}
