/** What has happened to a run before it is replaced or reaches a phase, over every
    interleaving of the callers. */
module GeoHistories {
  import opened Prelude
  import opened PythonText
  import opened GeoEvidence
  import opened GeoRuns
  import opened GeoStores
  import opened GeoConcurrency

  // ---- A run is replaced only when it is complete ----------------------------------------------

  /** What one action does to the row of a session: nothing, the next revision of the same run,
      or, over a run that is complete, an empty new run. */
  lemma RowAfter(show: Value -> string, s: System, a: Action, id: string)
    requires Inv(s) && Enabled(s, a) && id in s.rows
    ensures var t := Next(show, s, a);
      && id in t.rows
      && (|| t.rows[id] == s.rows[id]
          || (t.rows[id].runId == s.rows[id].runId && t.rows[id].revision == s.rows[id].revision + 1)
          || (&& a.Start? && s.rows[id].phase == Complete && t.rows[id].runId == a.runId
              && t.rows[id] == GeoRun(id, a.runId, Strip(a.subject), Preflight, map[], map[], 0)))
  {
    hide Apply, RowOk, OneContent, Strip, GoodText;
    match a {
      case Start(sessionId, subject, runId) =>
      case Read(i, sessionId, call) =>
      case Authorize(i, sessionId, ref) =>
      case Check(i, sessionId, ref) =>
      case ReadChecked(i) =>
      case Commit(i) =>
        if Wins(show, s, i) {
          var c := CallerAt(s, i);
          WinnerHoldsCurrent(show, s, i);
          ApplyKeeps(show, c.row, c.call);
          SucceedsInPlace(c.row, Apply(show, c.row, c.call).value);
        }
    }
  }

  /** Starting on a session whose run is not complete changes nothing at all. */
  lemma StartLeavesActive(show: Value -> string, s: System, a: Action)
    requires Enabled(s, a) && a.Start? && a.sessionId in s.rows && s.rows[a.sessionId].phase != Complete
    ensures Next(show, s, a) == s
  {
    hide Strip, GoodText;
  }

  /** When the run of a session has changed, the earlier one was complete at some moment in
      between, still in its session. */
  lemma {:induction false} ReplacedWhenComplete(
    show: Value -> string, states: seq<System>, actions: seq<Action>, i: nat, j: nat, id: string) returns (m: nat)
    requires Run(show, states, actions) && i <= j < |states|
    requires id in states[i].rows && id in states[j].rows && states[i].rows[id].runId != states[j].rows[id].runId
    ensures i <= m < j && id in states[m].rows
    ensures states[m].rows[id].runId == states[i].rows[id].runId && states[m].rows[id].phase == Complete
    decreases j
  {
    hide Inv, Enabled, Next;
    SessionStays(show, states, actions, i, j - 1, id);
    RunInv(show, states, actions, j - 1);
    RunStep(show, states, actions, j - 1);
    RowAfter(show, states[j - 1], actions[j - 1], id);
    if states[j - 1].rows[id].runId == states[i].rows[id].runId {
      m := j - 1;
    } else {
      m := ReplacedWhenComplete(show, states, actions, i, j - 1, id);
    }
  }

  lemma {:induction false} SessionStays(
    show: Value -> string, states: seq<System>, actions: seq<Action>, i: nat, j: nat, id: string)
    requires Run(show, states, actions) && i <= j < |states| && id in states[i].rows
    ensures id in states[j].rows
    decreases j
  {
    hide Inv, Enabled, Next;
    if i < j {
      SessionStays(show, states, actions, i, j - 1, id);
      RunInv(show, states, actions, j - 1);
      RunStep(show, states, actions, j - 1);
      RowAfter(show, states[j - 1], actions[j - 1], id);
    }
  }

  // ---- Phases are earned -------------------------------------------------------------------------

  /** This row of the run was ready to leave its phase. */
  predicate ReadyToLeave(v: GeoRun, phase: Phase) {
    && v.phase == phase
    && match phase
       case Preflight => Fetch in v.measurements && forall key | key in FROZEN :: key in v.config
       case LiveObserve => RecordedIn(v, LiveObserve) && PREREGISTRATION in v.config
       case Experiment => RecordedIn(v, Experiment) && forall stage: Stage :: stage in v.measurements
       case Complete => false
  }

  predicate ReadyToFinish(v: GeoRun) {
    v.phase == LiveObserve && RecordedIn(v, LiveObserve) && forall stage: Stage :: stage in v.measurements
  }

  /** Some row of the same run, stored before, was ready to leave the phase. */
  predicate Left(written: set<GeoRun>, w: GeoRun, phase: Phase) {
    exists v :: v in written && v.runId == w.runId && ReadyToLeave(v, phase)
  }

  predicate FinishedLive(written: set<GeoRun>, w: GeoRun) {
    exists v :: v in written && v.runId == w.runId && ReadyToFinish(v)
  }

  predicate Earned(written: set<GeoRun>, w: GeoRun) {
    match w.phase
    case Preflight => true
    case LiveObserve => Left(written, w, Preflight)
    case Experiment => Left(written, w, Preflight) && Left(written, w, LiveObserve)
    case Complete =>
      && Left(written, w, Preflight)
      && (FinishedLive(written, w) || (Left(written, w, LiveObserve) && Left(written, w, Experiment)))
  }

  predicate AllEarned(s: System) {
    forall w | w in s.written :: Earned(s.written, w)
  }

  lemma EarnedStays(written: set<GeoRun>, more: set<GeoRun>, w: GeoRun, next: GeoRun)
    requires written <= more && Earned(written, w) && next.runId == w.runId && next.phase == w.phase
    ensures Earned(more, next)
  {
    hide ReadyToLeave, ReadyToFinish;
  }

  /** The operation that changes the phase finds it ready to be left. */
  lemma LeavesReady(show: Value -> string, row: GeoRun, call: Call)
    requires Apply(show, row, call).Ok?
    ensures var next := Apply(show, row, call).value;
      next.phase != row.phase ==>
        || (next.phase == LiveObserve && ReadyToLeave(row, Preflight))
        || (next.phase == Experiment && ReadyToLeave(row, LiveObserve))
        || (next.phase == Complete && (ReadyToFinish(row) || ReadyToLeave(row, Experiment)))
  {
    match call {
      case Configure(raw) => hide CleanSetting, ALLOWED, FROZEN;
      case Record(raw) => hide FromDict, FROZEN;
      case Advance(target) => AdvanceExactly(row, target); hide AdvanceRow, FROZEN;
      case Finish(kind) => FinishExactly(row, kind); hide FinishRow, FROZEN;
    }
  }

  lemma EarnsNext(written: set<GeoRun>, row: GeoRun, next: GeoRun)
    requires row in written && Earned(written, row) && next.runId == row.runId
    requires next.phase != row.phase
    requires || (next.phase == LiveObserve && ReadyToLeave(row, Preflight))
             || (next.phase == Experiment && ReadyToLeave(row, LiveObserve))
             || (next.phase == Complete && (ReadyToFinish(row) || ReadyToLeave(row, Experiment)))
    ensures Earned(written, next)
  {
    hide RecordedIn, FROZEN;
  }

  lemma NextEarned(show: Value -> string, s: System, a: Action)
    requires Inv(s) && Enabled(s, a) && AllEarned(s)
    ensures AllEarned(Next(show, s, a))
  {
    hide Apply, RowOk, OneContent, Overwritten, StartRow, Earned;
    var t := Next(show, s, a);
    NextKeeps(show, s, a);
    forall w | w in t.written
      ensures Earned(t.written, w)
    {
      if w in s.written {
        EarnedStays(s.written, t.written, w, w);
      } else if a.Start? {
        StartIsFresh(Current(s, a.sessionId), a.sessionId, a.subject, a.runId);
        PreflightEarned(t.written, w);
      } else {
        var c := CallerAt(s, a.caller);
        WinnerHoldsCurrent(show, s, a.caller);
        HeldIsStored(s, a.caller);
        ApplyKeeps(show, c.row, c.call);
        SucceedsInPlace(c.row, w);
        LeavesReady(show, c.row, c.call);
        if w.phase == c.row.phase {
          EarnedStays(s.written, t.written, c.row, w);
        } else {
          EarnsNext(s.written, c.row, w);
          EarnedStays(s.written, t.written, w, w);
        }
      }
    }
  }

  lemma PreflightEarned(written: set<GeoRun>, w: GeoRun)
    requires w.phase == Preflight
    ensures Earned(written, w)
  {
  }

  /** In every reachable state each row has earned its phase: rows of its own run, stored
      before, had what leaving each earlier phase takes. */
  lemma {:induction false} PhasesAreEarned(
    show: Value -> string, states: seq<System>, actions: seq<Action>, j: nat)
    requires Run(show, states, actions) && j < |states|
    ensures AllEarned(states[j])
  {
    hide Inv, Enabled, Next;
    if j > 0 {
      PhasesAreEarned(show, states, actions, j - 1);
      RunInv(show, states, actions, j - 1);
      RunStep(show, states, actions, j - 1);
      hide AllEarned;
      NextEarned(show, states[j - 1], actions[j - 1]);
    }
  }
}
