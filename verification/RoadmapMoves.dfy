/** Every move of the life of a GAP can be made: for each there are two ledgers of two GAPs, one
    that moves and one that stays OPEN, between which the step is accepted on develop. */
module RoadmapMoves {
  import opened Prelude
  import opened RoadmapModel
  import opened RoadmapRules
  import opened RoadmapDelivery
  import opened RoadmapLifecycle
  import RoadmapExample

  type Change = (Status, Status)

  /** The cells of such ledgers; `arrow` writes a blocker transition. */
  datatype Words = Words(
    id: Id, other: Id, package: Id, otherPackage: Id,
    prose: Cell, owner: Cell, branch: Cell, link: Cell, time: Cell, commit: Cell, release: Cell,
    verification: Cell, rationale: Cell, rejected: Cell, superseded: Cell, arrow: Change -> Cell)

  const MOVABLE: set<Status> := {Open, Ready, InProgress, InDevelop, Blocked, Rejected, Superseded}

  predicate ReadsNames(t: TextRules, w: Words) {
    && w.id != w.other && w.package != w.otherPackage
    && !(t.empty)(w.id) && (t.clean)(w.id) == w.id && (t.gapList)(w.id) == Some([w.id])
    && !(t.empty)(w.other) && (t.gapList)(w.other) == Some([w.other])
    && !(t.empty)(w.package) && (t.clean)(w.package) == w.package
    && (t.packageFormat)(w.package) && (t.packageFormat)(w.otherPackage)
  }

  predicate ReadsProse(t: TextRules, w: Words) {
    && !(t.empty)(w.prose) && (t.meaningful)(w.prose)
    && !(t.empty)(w.owner) && (t.ownerFormat)(w.owner)
    && !(t.empty)(w.branch) && (t.branchFormat)(w.branch)
    && !(t.empty)(w.link) && (t.prLink)(w.link) && (t.durableReference)(w.link)
    && !(t.empty)(w.time) && (t.utcTimestamp)(w.time)
    && !(t.empty)(w.commit) && (t.sha)(w.commit)
    && !(t.empty)(w.release) && (t.releaseVersion)(w.release)
    && !(t.empty)(w.verification) && (t.verified)(w.verification) && (t.structuredPass)(w.verification)
  }

  predicate ReadsDecisions(t: TextRules, w: Words) {
    && !(t.empty)(w.rationale) && |(t.clean)(w.rationale)| >= RATIONALE_MINIMUM
    && !(t.empty)(w.rejected) && (t.clean)(w.rejected) == "REJECTED"
    && !(t.empty)(w.superseded) && (t.clean)(w.superseded) == "SUPERSEDED"
  }

  ghost predicate ReadsArrows(t: TextRules, w: Words) {
    forall a, b | a in MOVABLE && b in MOVABLE ::
      !(t.empty)(w.arrow((a, b))) && (t.matchTransition)(w.arrow((a, b))) == Some((a, b))
  }

  ghost predicate Reads(t: TextRules, w: Words) {
    ReadsNames(t, w) && ReadsProse(t, w) && ReadsDecisions(t, w) && ReadsArrows(t, w)
  }

  function Moving(w: Words, s: Status): Gap { Gap(w.id, "ABSENT", w.prose, w.prose, w.package, [], s) }
  function Staying(w: Words): Gap { Gap(w.other, "ABSENT", w.prose, w.prose, w.otherPackage, [], Open) }
  function ClaimRow(w: Words): Claim { Claim(w.package, [w.id], w.owner, w.branch, w.link, w.time) }
  function Delivery(w: Words): DevelopRow { DevelopRow(w.package, w.id, w.link, w.commit, w.verification) }
  function Closure(w: Words): MainRow { MainRow(w.id, w.link, w.release, w.verification, w.prose, w.prose) }

  function Decision(w: Words, s: Status): DecisionRow {
    DecisionRow(w.id, if s == Rejected then w.rejected else w.superseded, w.other, w.rationale, w.link, w.verification)
  }

  function Blocker(w: Words, m: Change): BlockerRow {
    BlockerRow(w.package, w.id, w.arrow(m), w.prose, w.link, w.verification)
  }

  function Blockers(w: Words, trail: seq<Change>): (rows: seq<BlockerRow>)
    ensures |rows| == |trail| && forall i | 0 <= i < |trail| :: rows[i] == Blocker(w, trail[i])
  {
    seq(|trail|, i requires 0 <= i < |trail| => Blocker(w, trail[i]))
  }

  function Doc(w: Words, s: Status, trail: seq<Change>): Roadmap {
    Roadmap(
      [Moving(w, s), Staying(w)],
      [Package(w.package, [w.id]), Package(w.otherPackage, [w.other])],
      [w.package, w.otherPackage],
      if s == InProgress then [ClaimRow(w)] else [],
      if s in DELIVERED then [Delivery(w)] else [],
      if s == Done then [Closure(w)] else [],
      if s in DECISION_STATUSES then [Decision(w, s)] else [],
      Blockers(w, trail))
  }

  /** A trail of blocker moves that a ledger at `s` may hold. */
  predicate TrailOk(trail: seq<Change>, s: Status) {
    && (forall m | m in trail ::
          && m.0 in MOVABLE && m.1 in MOVABLE
          && (m.0 == Blocked) != (m.1 == Blocked) && m.1 in AllowedTargets(m.0))
    && NoDuplicates(trail)
    && (s == Blocked ==> trail != [])
    && (trail != [] ==> (s == Blocked <==> trail[|trail| - 1].1 == Blocked))
  }

  // ---- The ledgers are valid ------------------------------------------------------------------

  lemma Shape(w: Words, s: Status)
    requires w.id != w.other && w.package != w.otherPackage
    ensures var gaps := [Moving(w, s), Staying(w)];
      && IndexGaps(gaps) == map[w.id := Moving(w, s), w.other := Staying(w)]
      && Members(gaps, w.package) == [Moving(w, s)] && Members(gaps, w.otherPackage) == [Staying(w)]
      && Statuses(gaps, w.package) == {s} && Statuses(gaps, w.otherPackage) == {Open}
      && GapIds(gaps) == [w.id, w.other] && GapIds([Moving(w, s)]) == [w.id]
  {
    hide IndexGaps, Members, Statuses, GapIds;
    RoadmapExample.PairIndex(Moving(w, s), Staying(w));
    RoadmapExample.PairMembers(Moving(w, s), Staying(w));
  }

  lemma DocAcyclic(w: Words, s: Status)
    requires w.id != w.other && w.package != w.otherPackage
    ensures Acyclic(IndexGaps([Moving(w, s), Staying(w)]))
  {
    Shape(w, s);
    var index := IndexGaps([Moving(w, s), Staying(w)]);
    forall path
      ensures !IsCycle(index, path)
    {
      hide IsCycle;
      if IsCycle(index, path) {
        RoadmapExample.CycleHasEdge(index, path);
      }
    }
  }

  lemma RowsOk(t: TextRules, w: Words, s: Status)
    requires ReadsNames(t, w) && ReadsProse(t, w) && !s.Unlisted?
    ensures var index := IndexGaps([Moving(w, s), Staying(w)]);
      GapRowOk(t, index, Moving(w, s)) && GapRowOk(t, index, Staying(w))
  {
    hide IndexGaps;
  }

  lemma SelectionsOk(w: Words, s: Status, trail: seq<Change>)
    requires w.id != w.other && w.package != w.otherPackage
    ensures var r := Doc(w, s, trail);
      && SelectionOk(r.packages, Moving(w, s)) && SelectionOk(r.packages, Staying(w))
      && NoDuplicates(r.packageHeadings) && NoDuplicates(PackageIds(r.packages))
  {
    var r := Doc(w, s, trail);
    RoadmapExample.SelectionShape(w.id, w.other, w.package, w.otherPackage);
    hide SelectedBy;
    assert r.packages[0] in r.packages && r.packages[0].id == w.package;
    assert r.packages[1] in r.packages && r.packages[1].id == w.otherPackage;
  }

  lemma SelectorsFine(w: Words, s: Status, trail: seq<Change>)
    requires w.id != w.other && w.package != w.otherPackage
    ensures var r := Doc(w, s, trail);
      && (forall p | p in r.packages :: SelectorOk(IndexGaps(r.gaps), p))
      && NoDuplicates(GapIds(r.gaps)) && Atomic(r.gaps)
  {
    Shape(w, s);
    hide IndexGaps, Members, Statuses, Blockers;
  }

  lemma GapsOk(t: TextRules, w: Words, s: Status, trail: seq<Change>)
    requires ReadsNames(t, w) && ReadsProse(t, w) && !s.Unlisted?
    ensures GapLedgerOk(t, Doc(w, s, trail))
  {
    assert Doc(w, s, trail).gaps == [Moving(w, s), Staying(w)];
    RowsOk(t, w, s);
    SelectionsOk(w, s, trail);
    SelectorsFine(w, s, trail);
    hide Doc, IndexGaps, SelectionOk, SelectorOk, PackageIds, GapRowOk, ReadsProse, ReadsNames, GapIds, NoDuplicates, Atomic;
  }

  lemma ClaimsFine(t: TextRules, w: Words, s: Status, trail: seq<Change>)
    requires ReadsNames(t, w) && ReadsProse(t, w)
    ensures ClaimsOk(t, Doc(w, s, trail))
  {
    Shape(w, s);
    if s == InProgress {
      ClaimFine(t, w);
    }
    var r := Doc(w, s, trail);
    hide Members, Statuses, GapIds, ClaimOk, Blockers, ReadsProse;
    assert s == InProgress ==> r.claims[0] == ClaimRow(w);
  }

  lemma ClaimFine(t: TextRules, w: Words)
    requires ReadsNames(t, w) && ReadsProse(t, w)
    ensures ClaimOk(t, [Moving(w, InProgress), Staying(w)], ClaimRow(w))
  {
    Shape(w, InProgress);
    hide Members, Statuses, GapIds;
  }

  lemma DeliveryFine(t: TextRules, w: Words, s: Status)
    requires ReadsNames(t, w) && ReadsProse(t, w) && s in DELIVERED
    ensures DevelopRowOk(t, [Moving(w, s), Staying(w)], Delivery(w)) && DevelopKey(t, Delivery(w)) == w.package
  {
    Shape(w, s);
    hide Members, Statuses, GapIds;
  }

  lemma DeliveriesFine(t: TextRules, w: Words, s: Status, trail: seq<Change>)
    requires ReadsNames(t, w) && ReadsProse(t, w)
    ensures DevelopEvidenceOk(t, Doc(w, s, trail))
  {
    Shape(w, s);
    if s in DELIVERED {
      DeliveryFine(t, w, s);
    }
    var r := Doc(w, s, trail);
    hide Members, Statuses, GapIds, DevelopRowOk, Blockers, ReadsProse, ReadsNames;
    assert s in DELIVERED ==> r.developEvidence[0] == Delivery(w) && Delivery(w) in r.developEvidence;
  }

  lemma ClosuresFine(t: TextRules, w: Words, s: Status, trail: seq<Change>)
    requires ReadsNames(t, w) && ReadsProse(t, w)
    ensures MainEvidenceOk(t, Doc(w, s, trail))
  {
    Shape(w, s);
    var r := Doc(w, s, trail);
    if s == Done {
      assert MainRowOk(t, IndexGaps(r.gaps), Closure(w)) && MainKey(t, Closure(w)) == w.id;
      assert r.mainEvidence[0] == Closure(w) && Closure(w) in r.mainEvidence;
    }
    hide IndexGaps, MainRowOk, Blockers, ReadsProse, ReadsNames;
  }

  lemma DecisionFine(t: TextRules, w: Words, s: Status)
    requires Reads(t, w) && s in DECISION_STATUSES
    ensures DecisionRowOk(t, IndexGaps([Moving(w, s), Staying(w)]), Decision(w, s))
    ensures DecisionKey(t, Decision(w, s)) == w.id && DecisionKind(t, Decision(w, s)) == StatusText(s)
  {
    Shape(w, s);
    hide IndexGaps, ReadsArrows, GapIds, Members, Statuses;
    assert DecisionReferences(t, Decision(w, s)) == Some([w.other]) || DecisionReferences(t, Decision(w, s)) == Some([]);
  }

  lemma DecisionsFine(t: TextRules, w: Words, s: Status, trail: seq<Change>)
    requires Reads(t, w)
    ensures DecisionEvidenceOk(t, Doc(w, s, trail))
  {
    var r := Doc(w, s, trail);
    if s in DECISION_STATUSES {
      DecisionFine(t, w, s);
      assert r.decisionEvidence[0] == Decision(w, s) && Decision(w, s) in r.decisionEvidence;
    }
    hide DecisionRowOk, IndexGaps, Blockers, Reads, DecisionKey, DecisionKind, StatusText, Decision;
  }

  lemma BlockerReads(t: TextRules, w: Words, m: Change)
    requires Reads(t, w) && m.0 in MOVABLE && m.1 in MOVABLE
    ensures BlockerKey(t, Blocker(w, m)) == w.package && Transition(t, Blocker(w, m).transition) == Some(m)
    ensures !(t.empty)(w.arrow(m))
  {
    assert m == (m.0, m.1);
  }

  lemma BlockerFine(t: TextRules, w: Words, s: Status, m: Change)
    requires Reads(t, w) && m.0 in MOVABLE && m.1 in MOVABLE
    requires (m.0 == Blocked) != (m.1 == Blocked) && m.1 in AllowedTargets(m.0)
    ensures BlockerRowOk(t, [Moving(w, s), Staying(w)], Blocker(w, m))
  {
    Shape(w, s);
    BlockerReads(t, w, m);
    hide Members, Statuses, GapIds, ReadsArrows, ReadsDecisions, AllowedTargets, MOVABLE, Transition;
  }

  lemma {:induction false} TrailRead(t: TextRules, w: Words, trail: seq<Change>)
    requires Reads(t, w) && forall m | m in trail :: m.0 in MOVABLE && m.1 in MOVABLE
    ensures PackageTransitions(t, Blockers(w, trail), w.package) == trail
    ensures PackageTransitions(t, Blockers(w, trail), w.otherPackage) == []
  {
    if trail != [] {
      var init, last := trail[..|trail| - 1], trail[|trail| - 1];
      var rows := Blockers(w, trail);
      assert rows[..|rows| - 1] == Blockers(w, init) && rows[|rows| - 1] == Blocker(w, last);
      TrailRead(t, w, init);
      BlockerReads(t, w, last);
      assert w.package != w.otherPackage;
      hide Reads, Blockers, Blocker, BlockerKey, Transition;
      assert trail == init + [last];
    }
  }

  lemma BlockersDiffer(t: TextRules, w: Words, trail: seq<Change>)
    requires Reads(t, w) && NoDuplicates(trail) && forall m | m in trail :: m.0 in MOVABLE && m.1 in MOVABLE
    ensures NoDuplicates(Blockers(w, trail))
  {
    forall i, j | 0 <= i < j < |trail|
      ensures Blocker(w, trail[i]) != Blocker(w, trail[j])
    {
      BlockerReads(t, w, trail[i]);
      BlockerReads(t, w, trail[j]);
    }
    hide Reads, Blocker;
  }

  lemma BlockersFine(t: TextRules, w: Words, s: Status, trail: seq<Change>)
    requires Reads(t, w) && TrailOk(trail, s)
    ensures BlockerEvidenceOk(t, Doc(w, s, trail))
  {
    var r := Doc(w, s, trail);
    BlockersDiffer(t, w, trail);
    forall row | row in r.blockerEvidence
      ensures BlockerRowOk(t, r.gaps, row)
    {
      var i :| 0 <= i < |trail| && row == Blocker(w, trail[i]);
      assert trail[i] in trail;
      BlockerFine(t, w, s, trail[i]);
    }
    TrailsFine(t, w, s, trail);
    hide Reads, BlockerRowOk, BlockerTrailOk, Blocker, NoDuplicates;
  }

  lemma TrailsFine(t: TextRules, w: Words, s: Status, trail: seq<Change>)
    requires Reads(t, w) && TrailOk(trail, s)
    ensures BlockerTrailOk(t, Doc(w, s, trail), w.package) && BlockerTrailOk(t, Doc(w, s, trail), w.otherPackage)
  {
    var r := Doc(w, s, trail);
    TrailRead(t, w, trail);
    Shape(w, s);
    if trail != [] {
      assert trail[0] in trail;
      BlockerReads(t, w, trail[0]);
      assert r.blockerEvidence[0] == Blocker(w, trail[0]) && Blocker(w, trail[0]) in r.blockerEvidence;
    }
    hide Reads, PackageTransitions, Blocker, NoDuplicates, Statuses, IndexGaps, Members, BlockerKey;
  }

  lemma DocParsed(t: TextRules, w: Words, s: Status, trail: seq<Change>)
    requires ReadsNames(t, w)
    ensures Parsed(t, Doc(w, s, trail))
  {
    var r := Doc(w, s, trail);
    assert r.packageHeadings[0] == w.package && r.packageHeadings[1] == w.otherPackage;
    assert forall row | row in r.blockerEvidence :: row.gaps == w.id;
    hide ReadsNames;
  }

  lemma DocFine(t: TextRules, w: Words, s: Status, trail: seq<Change>)
    requires Reads(t, w) && !s.Unlisted? && TrailOk(trail, s)
    ensures DocumentOk(t, Some(Doc(w, s, trail)))
  {
    GapsOk(t, w, s, trail);
    DocAcyclic(w, s);
    ClaimsFine(t, w, s, trail);
    DeliveriesFine(t, w, s, trail);
    ClosuresFine(t, w, s, trail);
    DecisionsFine(t, w, s, trail);
    BlockersFine(t, w, s, trail);
    DocParsed(t, w, s, trail);
    assert Doc(w, s, trail).gaps == [Moving(w, s), Staying(w)];
    hide Doc, GapLedgerOk, ClaimsOk, DevelopEvidenceOk, MainEvidenceOk, DecisionEvidenceOk, BlockerEvidenceOk;
    hide Acyclic, IndexGaps, Parsed, Reads, TrailOk;
  }

  // ---- The step between them -------------------------------------------------------------------

  function TrailBefore(a: Status): seq<Change> { if a == Blocked then [(Open, Blocked)] else [] }

  function TrailAfter(a: Status, b: Status): seq<Change> {
    TrailBefore(a) + if a == Blocked || b == Blocked then [(a, b)] else []
  }

  function Before(w: Words, a: Status): Roadmap { Doc(w, a, TrailBefore(a)) }
  function After(w: Words, a: Status, b: Status): Roadmap { Doc(w, b, TrailAfter(a, b)) }

  lemma TrailsOk(a: Status, b: Status)
    requires CanMove(a, b)
    ensures TrailOk(TrailBefore(a), a) && TrailOk(TrailAfter(a, b), b)
  {
  }

  lemma BlockersGrow(w: Words, a: Status, b: Status)
    ensures Blockers(w, TrailAfter(a, b)) ==
      Blockers(w, TrailBefore(a)) + if a == Blocked || b == Blocked then [Blocker(w, (a, b))] else []
  {
  }

  function Trusted(w: Words, a: Status, b: Status): Option<Roadmap> {
    if b == Done then Some(After(w, a, b)) else None
  }

  lemma NewBlocker(t: TextRules, w: Words, a: Status, b: Status)
    requires Reads(t, w) && CanMove(a, b) && (a == Blocked || b == Blocked)
    ensures var row := Blocker(w, (a, b));
      && row in After(w, a, b).blockerEvidence && row !in Before(w, a).blockerEvidence
      && BlockerKey(t, row) == w.package && Transition(t, row.transition) == Some((a, b))
  {
    var row := Blocker(w, (a, b));
    BlockersGrow(w, a, b);
    BlockerReads(t, w, (a, b));
    var rows := After(w, a, b).blockerEvidence;
    assert rows[|rows| - 1] == row;
    if a == Blocked {
      BlockerReads(t, w, (Open, Blocked));
    }
    hide Reads, Blocker, BlockerKey, Transition;
  }

  lemma ClaimedExactly(w: Words, s: Status, trail: seq<Change>)
    ensures HasClaim(Doc(w, s, trail).claims, w.package) <==> s == InProgress
    ensures forall p | HasClaim(Doc(w, s, trail).claims, p) :: p == w.package
  {
    if s == InProgress {
      assert Doc(w, s, trail).claims[0] == ClaimRow(w);
    }
    hide Blockers;
  }

  lemma NewlyDelivered(t: TextRules, w: Words, a: Status, b: Status)
    requires Reads(t, w) && CanMove(a, b) && b == InDevelop
    ensures var row := Delivery(w);
      row in After(w, a, b).developEvidence && row !in Before(w, a).developEvidence && DevelopKey(t, row) == w.package
  {
    DeliveryFine(t, w, b);
    assert After(w, a, b).developEvidence[0] == Delivery(w);
    hide Reads, Blockers, DevelopRowOk;
  }

  lemma NewlyClosed(t: TextRules, w: Words, a: Status, b: Status)
    requires Reads(t, w) && CanMove(a, b) && b == Done
    ensures var row := Closure(w);
      row in After(w, a, b).mainEvidence && row !in Before(w, a).mainEvidence && MainKey(t, row) == w.id
    ensures TrustedDone(t, Trusted(w, a, b), After(w, a, b), w.id)
  {
    Shape(w, b);
    assert After(w, a, b).mainEvidence[0] == Closure(w);
    assert MainKey(t, Closure(w)) == w.id;
    hide Reads, Blockers, IndexGaps, MainKey, Closure;
  }

  lemma NewlyDecided(t: TextRules, w: Words, a: Status, b: Status)
    requires Reads(t, w) && CanMove(a, b) && b in DECISION_STATUSES
    ensures var row := Decision(w, b);
      && row in After(w, a, b).decisionEvidence && row !in Before(w, a).decisionEvidence
      && DecisionKey(t, row) == w.id && DecisionKind(t, row) == StatusText(b)
  {
    DecisionFine(t, w, b);
    assert After(w, a, b).decisionEvidence[0] == Decision(w, b);
    hide Reads, Blockers, DecisionRowOk, IndexGaps, DecisionKey, DecisionKind, StatusText;
  }

  lemma MoveListed(a: Status, b: Status)
    requires CanMove(a, b)
    ensures b in AllowedTargets(a) && a != b
  {
  }

  lemma StatusFine(t: TextRules, w: Words, a: Status, b: Status)
    requires Reads(t, w) && CanMove(a, b)
    ensures StatusChangeOk(t, Before(w, a), After(w, a, b), Trusted(w, a, b), false, Moving(w, a), Moving(w, b))
  {
    MoveListed(a, b);
    ClaimedExactly(w, b, TrailAfter(a, b));
    if a == Blocked || b == Blocked {
      NewBlocker(t, w, a, b);
    }
    if b in DECISION_STATUSES {
      NewlyDecided(t, w, a, b);
    }
    if b == InDevelop {
      NewlyDelivered(t, w, a, b);
    }
    if b == Done {
      NewlyClosed(t, w, a, b);
    }
    hide Reads, Doc, Before, TrustedDone, HasClaim, Blocker, BlockerKey, Transition, DecisionKey, DecisionKind, DevelopKey;
    hide MainKey, Decision, StatusText, Delivery, Closure, TrailAfter, AllowedTargets, CanMove, Trusted;
  }

  lemma MovesOn(t: TextRules, w: Words, a: Status, b: Status)
    requires Reads(t, w) && CanMove(a, b)
    ensures KeptGapOk(t, Before(w, a), After(w, a, b), Trusted(w, a, b), false, Moving(w, a), Moving(w, b))
  {
    StatusFine(t, w, a, b);
    hide Reads, Before, After, Trusted, StatusChangeOk, CanMove;
  }

  lemma PairChanges(
    t: TextRules, base: Roadmap, current: Roadmap, trustedMain: Option<Roadmap>, before: Gap, after: Gap, still: Gap)
    requires base.gaps == [before, still] && current.gaps == [after, still]
    requires before.id == after.id && before.id != still.id
    requires KeptGapOk(t, base, current, trustedMain, false, before, after)
    requires KeptGapOk(t, base, current, trustedMain, false, still, still)
    ensures GapChangesOk(t, base, current, trustedMain, false)
  {
    hide KeptGapOk, IndexGaps, NewGapOk, GapIds;
    RoadmapExample.PairIndex(before, still);
    RoadmapExample.PairIndex(after, still);
    assert IndexGaps(base.gaps).Keys == IndexGaps(current.gaps).Keys == {before.id, still.id};
  }

  lemma StaysStill(t: TextRules, base: Roadmap, current: Roadmap, trustedMain: Option<Roadmap>, g: Gap)
    ensures KeptGapOk(t, base, current, trustedMain, false, g, g)
  {
  }

  lemma GapsOf(w: Words, a: Status, b: Status)
    ensures Before(w, a).gaps == [Moving(w, a), Staying(w)] && After(w, a, b).gaps == [Moving(w, b), Staying(w)]
    ensures Moving(w, a).id == Moving(w, b).id == w.id && Staying(w).id == w.other
  {
  }

  lemma Accounted(t: TextRules, w: Words, a: Status, b: Status)
    requires Reads(t, w) && CanMove(a, b)
    ensures GapChangesOk(t, Before(w, a), After(w, a, b), Trusted(w, a, b), false)
  {
    assert w.id != w.other;
    hide *;
    MovesOn(t, w, a, b);
    GapsOf(w, a, b);
    StaysStill(t, Before(w, a), After(w, a, b), Trusted(w, a, b), Staying(w));
    PairChanges(t, Before(w, a), After(w, a, b), Trusted(w, a, b), Moving(w, a), Moving(w, b), Staying(w));
  }

  lemma DeliveryAdded(w: Words, a: Status, b: Status)
    requires CanMove(a, b)
    ensures forall row | row in After(w, a, b).developEvidence && row !in Before(w, a).developEvidence ::
      b == InDevelop && row == Delivery(w)
  {
    assert a == InDevelop ==> Before(w, a).developEvidence[0] == Delivery(w);
    hide Blockers, Delivery;
  }

  lemma NewDelivery(t: TextRules, w: Words, a: Status, b: Status)
    requires Reads(t, w) && CanMove(a, b)
    ensures forall row | row in After(w, a, b).developEvidence && row !in Before(w, a).developEvidence ::
      NewDevelopRowOk(t, Before(w, a), After(w, a, b), row)
  {
    MoveListed(a, b);
    DeliveryAdded(w, a, b);
    Shape(w, a);
    Shape(w, b);
    assert (t.structuredPass)(Delivery(w).verification);
    if b == InDevelop {
      DeliveryFine(t, w, b);
      assert Before(w, a).gaps == [Moving(w, a), Staying(w)] && After(w, a, b).gaps == [Moving(w, b), Staying(w)];
      hide Doc, Reads, Delivery, Statuses, DevelopRowOk, Members, IndexGaps, GapIds, DevelopKey, CanMove;
      assert NewDevelopRowOk(t, Before(w, a), After(w, a, b), Delivery(w));
    }
    hide *;
  }

  lemma NewClosure(t: TextRules, w: Words, a: Status, b: Status)
    requires Reads(t, w) && CanMove(a, b)
    ensures forall row | row in After(w, a, b).mainEvidence && row !in Before(w, a).mainEvidence ::
      NewMainRowOk(t, Before(w, a), After(w, a, b), row)
  {
    Shape(w, a);
    Shape(w, b);
    hide IndexGaps, Members, Statuses, GapIds, Blockers, ReadsArrows, ReadsDecisions;
  }

  lemma DecisionAdded(w: Words, a: Status, b: Status)
    requires CanMove(a, b)
    ensures forall row | row in After(w, a, b).decisionEvidence && row !in Before(w, a).decisionEvidence ::
      b in DECISION_STATUSES && row == Decision(w, b)
  {
    hide Blockers, Decision;
  }

  lemma DecisionNew(t: TextRules, base: Roadmap, current: Roadmap, row: DecisionRow, before: Gap, after: Gap)
    requires (t.structuredPass)(row.reaudit) && DecisionReferences(t, row).Some?
    requires DecisionKey(t, row) in IndexGaps(base.gaps) && IndexGaps(base.gaps)[DecisionKey(t, row)] == before
    requires DecisionKey(t, row) in IndexGaps(current.gaps) && IndexGaps(current.gaps)[DecisionKey(t, row)] == after
    requires before.status != after.status && StatusText(after.status) == DecisionKind(t, row)
    ensures NewDecisionRowOk(t, base, current, row)
  {
    hide IndexGaps, DecisionKey, DecisionKind, DecisionReferences, StatusText;
  }

  lemma DecisionReadable(t: TextRules, w: Words, s: Status)
    requires Reads(t, w) && s in DECISION_STATUSES
    ensures (t.structuredPass)(Decision(w, s).reaudit) && DecisionReferences(t, Decision(w, s)).Some?
  {
    hide ReadsArrows;
  }

  lemma NewDecision(t: TextRules, w: Words, a: Status, b: Status)
    requires Reads(t, w) && CanMove(a, b)
    ensures forall row | row in After(w, a, b).decisionEvidence && row !in Before(w, a).decisionEvidence ::
      NewDecisionRowOk(t, Before(w, a), After(w, a, b), row)
  {
    DecisionAdded(w, a, b);
    if b in DECISION_STATUSES {
      MoveListed(a, b);
      Shape(w, a);
      Shape(w, b);
      GapsOf(w, a, b);
      hide IndexGaps, Members, Statuses, GapIds, Reads, DecisionKey, DecisionKind, DecisionReferences, StatusText;
      hide DecisionRowOk, Decision, CanMove, Before, After, AllowedTargets;
      DecisionFine(t, w, b);
      DecisionReadable(t, w, b);
      DecisionNew(t, Before(w, a), After(w, a, b), Decision(w, b), Moving(w, a), Moving(w, b));
    }
    hide *;
  }

  lemma NewBlockers(t: TextRules, w: Words, a: Status, b: Status)
    requires Reads(t, w) && CanMove(a, b)
    ensures forall row | row in After(w, a, b).blockerEvidence && row !in Before(w, a).blockerEvidence ::
      NewBlockerRowOk(t, Before(w, a), After(w, a, b), row)
  {
    Shape(w, a);
    Shape(w, b);
    BlockersGrow(w, a, b);
    if a == Blocked || b == Blocked {
      NewBlocker(t, w, a, b);
      assert NewBlockerRowOk(t, Before(w, a), After(w, a, b), Blocker(w, (a, b)));
    }
    hide Statuses, NewBlockerRowOk, Blockers, Blocker, Reads, Members, IndexGaps, GapIds;
  }

  lemma ClaimsStay(t: TextRules, w: Words, a: Status, b: Status)
    requires Reads(t, w) && CanMove(a, b)
    ensures ClaimsKeptOk(Before(w, a), After(w, a, b))
  {
    MoveListed(a, b);
    Shape(w, a);
    Shape(w, b);
    ClaimedExactly(w, a, TrailBefore(a));
    ClaimedExactly(w, b, TrailAfter(a, b));
    assert Before(w, a).gaps == [Moving(w, a), Staying(w)] && After(w, a, b).gaps == [Moving(w, b), Staying(w)];
    hide Doc, Statuses, Reads, Members, IndexGaps, GapIds, HasClaim, CanMove, Moving, Staying;
  }

  lemma RowsAppended(w: Words, a: Status, b: Status)
    requires CanMove(a, b)
    ensures EvidenceAppended(Before(w, a), After(w, a, b))
  {
    BlockersGrow(w, a, b);
    hide Blockers, Blocker;
  }

  lemma SyncsWithItself(t: TextRules, r: Roadmap)
    ensures MainSyncOk(t, r, r)
  {
    hide IndexGaps;
  }

  lemma MoveTransitionsOk(t: TextRules, w: Words, a: Status, b: Status)
    requires Reads(t, w) && CanMove(a, b)
    ensures TransitionsOk(t, Before(w, a), After(w, a, b), Trusted(w, a, b), false)
  {
    Accounted(t, w, a, b);
    NewDelivery(t, w, a, b);
    NewClosure(t, w, a, b);
    NewDecision(t, w, a, b);
    NewBlockers(t, w, a, b);
    ClaimsStay(t, w, a, b);
    RowsAppended(w, a, b);
    var base, current := Before(w, a), After(w, a, b);
    SyncsWithItself(t, current);
    hide Before, After, Reads, GapChangesOk, MainSyncOk, ClaimsKeptOk, EvidenceAppended, CanMove;
    hide NewDevelopRowOk, NewMainRowOk, NewDecisionRowOk, NewBlockerRowOk;
    assert NewEvidenceOk(t, base, current);
    hide NewEvidenceOk;
  }

  lemma DocsFine(t: TextRules, w: Words, a: Status, b: Status)
    requires Reads(t, w) && CanMove(a, b)
    ensures DocumentOk(t, Some(Before(w, a))) && DocumentOk(t, Some(After(w, a, b)))
    ensures DocumentOk(t, Trusted(w, a, b))
  {
    MoveListed(a, b);
    assert !a.Unlisted? && !b.Unlisted?;
    hide Doc, TrailBefore, TrailAfter, Reads, DocumentOk, TrailOk, CanMove, AllowedTargets;
    TrailsOk(a, b);
    DocFine(t, w, a, TrailBefore(a));
    DocFine(t, w, b, TrailAfter(a, b));
    NoDocument(t);
  }

  lemma NoDocument(t: TextRules)
    ensures DocumentOk(t, None)
  {
  }

  /** The step is accepted. */
  lemma MoveAccepted(t: TextRules, w: Words, a: Status, b: Status)
    requires Reads(t, w) && CanMove(a, b)
    ensures BranchStep(t, Develop, Before(w, a), After(w, a, b))
  {
    DocsFine(t, w, a, b);
    MoveTransitionsOk(t, w, a, b);
    hide Doc, Before, After, Reads, DocumentOk, TransitionsOk, CanMove;
    NoDocument(t);
    assert Accepted(t, Develop, PullRequest, Some(Before(w, a)), After(w, a, b), Trusted(w, a, b), None);
  }

  /** Some accepted step on develop makes this move. */
  ghost predicate Happens(t: TextRules, a: Status, b: Status) {
    exists base, current, i: nat ::
      BranchStep(t, Develop, base, current) && StatusIs(base, i, a) && StatusIs(current, i, b)
  }

  /** Under any judgements that read such cells, accepted steps on develop make exactly the
      moves of a GAP's life. */
  lemma MovesExactly(t: TextRules, w: Words, a: Status, b: Status)
    requires Reads(t, w) && a != b
    ensures Happens(t, a, b) <==> CanMove(a, b)
  {
    hide BranchStep, Reads;
    if CanMove(a, b) {
      MoveAccepted(t, w, a, b);
      assert StatusIs(Before(w, a), 0, a) && StatusIs(After(w, a, b), 0, b);
    }
    if base, current, i: nat :| BranchStep(t, Develop, base, current) && StatusIs(base, i, a) && StatusIs(current, i, b) {
      StepMoves(t, base, current, i);
    }
  }

  function Code(s: Status): char {
    match s
    case Open => 'O' case Ready => 'R' case InProgress => 'P' case InDevelop => 'D' case Blocked => 'B'
    case Rejected => 'J' case Superseded => 'S' case Done => 'N' case Unlisted(_) => '?'
  }

  function Decoded(c: char): Status {
    if c == 'O' then Open else if c == 'R' then Ready else if c == 'P' then InProgress else if c == 'D' then InDevelop
    else if c == 'B' then Blocked else if c == 'J' then Rejected else Superseded
  }

  function Draw(m: Change): Cell { [Code(m.0), Code(m.1)] }

  function Undrawn(cell: Cell): Option<Change> {
    if |cell| == 2 then Some((Decoded(cell[0]), Decoded(cell[1]))) else None
  }

  lemma Undraws(a: Status, b: Status)
    requires a in MOVABLE && b in MOVABLE
    ensures Undrawn(Draw((a, b))) == Some((a, b))
  {
    assert Decoded(Code(a)) == a;
    assert Decoded(Code(b)) == b;
    hide Code, Decoded, MOVABLE;
  }

  const LITERAL := TextRules(
    cell => cell, cell => false, cell => true, cell => true, cell => true, cell => true, cell => true,
    cell => true, cell => true, cell => true, cell => true, cell => true, id => true,
    cell => Some([cell]), cell => false, cell => Undrawn(cell))

  const WORDS := Words(
    "EXT-001", "EXT-002", "R1.1", "R1.2", "Plugins have one registry", "owner/session", "feature/plugins",
    "[#101](https://github.com/mangowhoiscloud/geode/pull/101)", "2026-01-02T03:04:05Z",
    "9fceb02d0ae598e95dc970b74767f19372d61af8", "v1.4.0", "`pytest tests/core/plugins` RESULT: PASS",
    "The other registry replaces it", "REJECTED", "SUPERSEDED", m => Draw(m))

  /** The cells can be read: for instance by judgements that take them as written. */
  lemma WordsCanBeRead()
    ensures Reads(LITERAL, WORDS)
  {
    assert WORDS.id[6] != WORDS.other[6] && WORDS.package[3] != WORDS.otherPackage[3];
    assert ReadsNames(LITERAL, WORDS);
    assert ReadsDecisions(LITERAL, WORDS);
    assert ReadsArrows(LITERAL, WORDS) by {
      ArrowsCanBeRead(LITERAL, WORDS);
    }
    hide ReadsNames, ReadsDecisions, ReadsArrows;
  }

  lemma ArrowsCanBeRead(t: TextRules, w: Words)
    requires forall cell :: !(t.empty)(cell) && (t.matchTransition)(cell) == Undrawn(cell)
    requires forall m :: w.arrow(m) == Draw(m)
    ensures ReadsArrows(t, w)
  {
    hide Undrawn, Draw, MOVABLE;
    forall a, b | a in MOVABLE && b in MOVABLE
      ensures (t.matchTransition)(w.arrow((a, b))) == Some((a, b))
    {
      Undraws(a, b);
    }
  }
}
