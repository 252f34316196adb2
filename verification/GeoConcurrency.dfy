/** Any number of callers of one GEO store: each reads a row, validates what it read, and
    then tries to write it back. Between a read and its write anything may happen. */
module GeoConcurrency {
  import opened Prelude
  import opened PythonText
  import opened GeoEvidence
  import opened GeoRuns
  import opened GeoStores

  datatype Actor = Tool | Operator

  datatype Caller =
    | Idle
    | Checked(seen: GeoRun, reference: string)              // preregistration, after its first read
    | Holding(row: GeoRun, call: Call, actor: Actor)        // after the read, before the write

  /** The table, every row content it ever held, and what each caller is doing. */
  datatype System = System(rows: map<string, GeoRun>, written: set<GeoRun>, callers: map<nat, Caller>)

  datatype Action =
    | Start(sessionId: string, subject: string, runId: string)
    | Read(caller: nat, sessionId: string, call: Call)
    | Authorize(caller: nat, sessionId: string, reference: string)
    | Check(caller: nat, sessionId: string, reference: string)
    | ReadChecked(caller: nat)
    | Commit(caller: nat)

  const INITIAL := System(map[], {}, map[])

  function CallerAt(s: System, i: nat): Caller {
    if i in s.callers then s.callers[i] else Idle
  }

  predicate UsedRunId(s: System, runId: string) {
    exists w :: w in s.written && w.runId == runId
  }

  predicate Enabled(s: System, a: Action) {
    match a
    case Start(_, _, runId) => !UsedRunId(s, runId)
    case Read(i, sessionId, call) => CallerAt(s, i).Idle? && sessionId in s.rows && ToolMay(call)
    case Authorize(i, sessionId, _) => CallerAt(s, i).Idle? && sessionId in s.rows
    case Check(i, sessionId, _) => CallerAt(s, i).Idle? && sessionId in s.rows && s.rows[sessionId].phase == LiveObserve
    case ReadChecked(i) => CallerAt(s, i).Checked? && CallerAt(s, i).seen.sessionId in s.rows
    case Commit(i) => CallerAt(s, i).Holding?
  }

  predicate Wins(show: Value -> string, s: System, i: nat) {
    var c := CallerAt(s, i);
    && c.Holding?
    && Apply(show, c.row, c.call).Ok?
    && c.row.sessionId in s.rows
    && SameVersion(s.rows[c.row.sessionId], c.row)
  }

  function Put(s: System, row: GeoRun): System {
    s.(rows := s.rows[row.sessionId := row], written := s.written + {row})
  }

  function Set(s: System, i: nat, c: Caller): System {
    s.(callers := s.callers[i := c])
  }

  function Current(s: System, sessionId: string): Option<GeoRun> {
    if sessionId in s.rows then Some(s.rows[sessionId]) else None
  }

  function Next(show: Value -> string, s: System, a: Action): System
    requires Enabled(s, a)
  {
    match a
    case Start(sessionId, subject, runId) =>
      var r := StartRow(Current(s, sessionId), sessionId, subject, runId);
      if r.Ok? && Some(r.value) != Current(s, sessionId) then Put(s, r.value) else s
    case Read(i, sessionId, call) => Set(s, i, Holding(s.rows[sessionId], call, Tool))
    case Authorize(i, sessionId, ref) => Set(s, i, Holding(s.rows[sessionId], Receipt(APPROVAL, ref), Operator))
    case Check(i, sessionId, ref) => Set(s, i, Checked(s.rows[sessionId], ref))
    case ReadChecked(i) =>
      var c := CallerAt(s, i);
      Set(s, i, Holding(s.rows[c.seen.sessionId], Receipt(PREREGISTRATION, c.reference), Operator))
    case Commit(i) =>
      if Wins(show, s, i) then
        var c := CallerAt(s, i);
        Set(Put(s, Overwritten(s.rows[c.row.sessionId], Apply(show, c.row, c.call).value)), i, Idle)
      else Set(s, i, Idle)
  }

  // ---- The invariant -----------------------------------------------------------------------

  predicate OneContent(written: set<GeoRun>) {
    forall v, w | v in written && w in written && v.runId == w.runId ::
      && v.sessionId == w.sessionId
      && (v.revision == w.revision ==> v == w)
      && (v.revision <= w.revision ==> PhaseRank(v.phase) <= PhaseRank(w.phase))
      && (v.phase != Preflight && w.phase != Preflight ==> FrozenPart(v) == FrozenPart(w))
  }

  predicate CurrentIsLatest(s: System) {
    forall id | id in s.rows ::
      && s.rows[id] in s.written
      && s.rows[id].sessionId == id
      && forall w | w in s.written && w.runId == s.rows[id].runId :: w.revision <= s.rows[id].revision
  }

  predicate HeldWasStored(s: System) {
    forall i | i in s.callers ::
      && (s.callers[i].Holding? ==> s.callers[i].row in s.written)
      && (s.callers[i].Checked? ==> s.callers[i].seen in s.written && s.callers[i].seen.phase == LiveObserve)
  }

  predicate Inv(s: System) {
    && (forall w | w in s.written :: RowOk(w))
    && OneContent(s.written) && CurrentIsLatest(s) && HeldWasStored(s)
  }

  lemma InitialInv()
    ensures Inv(INITIAL)
  {
  }

  /** A version that still matches is the very row that was read. */
  lemma WinnerHoldsCurrent(show: Value -> string, s: System, i: nat)
    requires Inv(s) && Wins(show, s, i)
    ensures var c := CallerAt(s, i);
      && c.row == s.rows[c.row.sessionId]
      && Overwritten(s.rows[c.row.sessionId], Apply(show, c.row, c.call).value) == Apply(show, c.row, c.call).value
      && RowOk(c.row)
  {
    hide Apply, RowOk;
    var c := CallerAt(s, i);
    assert c.row in s.written && s.rows[c.row.sessionId] in s.written;
    ApplyFields(show, c.row, c.call);
  }

  lemma ApplyFields(show: Value -> string, row: GeoRun, call: Call)
    requires Apply(show, row, call).Ok? && RowOk(row)
    ensures Overwritten(row, Apply(show, row, call).value) == Apply(show, row, call).value
  {
    hide Apply, RowOk;
    ApplyKeeps(show, row, call);
  }

  /** Storing a row of a run id never used before, or the successor of the current row,
      keeps the invariant. */
  lemma PutKeeps(s: System, row: GeoRun)
    requires Inv(s) && RowOk(row)
    requires !UsedRunId(s, row.runId)
          || (row.sessionId in s.rows && Succeeds(s.rows[row.sessionId], row))
    ensures Inv(Put(s, row))
  {
    hide RowOk, FrozenPart, PhaseRank;
    var t := Put(s, row);
    if !UsedRunId(s, row.runId) {
      assert OneContent(t.written);
      assert CurrentIsLatest(t);
    } else {
      var current := s.rows[row.sessionId];
      forall w | w in s.written && w.runId == row.runId
        ensures w.revision < row.revision && w.sessionId == row.sessionId && PhaseRank(w.phase) <= PhaseRank(row.phase)
        ensures w.phase != Preflight && row.phase != Preflight ==> FrozenPart(w) == FrozenPart(row)
      {
        PreflightFirst(w, current, row);
      }
      assert OneContent(t.written);
      assert CurrentIsLatest(t);
    }
    assert HeldWasStored(t);
  }

  lemma PreflightFirst(w: GeoRun, current: GeoRun, row: GeoRun)
    requires PhaseRank(w.phase) <= PhaseRank(current.phase) && Succeeds(current, row)
    requires w.phase != Preflight && current.phase != Preflight ==> FrozenPart(w) == FrozenPart(current)
    ensures PhaseRank(w.phase) <= PhaseRank(row.phase)
    ensures w.phase != Preflight && row.phase != Preflight ==> FrozenPart(w) == FrozenPart(row)
  {
    hide FrozenPart;
  }

  lemma NextKeeps(show: Value -> string, s: System, a: Action)
    requires Inv(s) && Enabled(s, a)
    ensures Inv(Next(show, s, a))
    ensures s.written <= Next(show, s, a).written
  {
    hide Apply, RowOk, StartRow, OneContent, Succeeds, Overwritten;
    match a {
      case Start(sessionId, subject, runId) =>
        var r := StartRow(Current(s, sessionId), sessionId, subject, runId);
        if r.Ok? && Some(r.value) != Current(s, sessionId) {
          StartIsFresh(Current(s, sessionId), sessionId, subject, runId);
          PutKeeps(s, r.value);
        }
      case Read(i, sessionId, call) =>
      case Authorize(i, sessionId, ref) =>
      case Check(i, sessionId, ref) =>
      case ReadChecked(i) =>
      case Commit(i) =>
        if Wins(show, s, i) {
          var c := CallerAt(s, i);
          WinnerHoldsCurrent(show, s, i);
          ApplyKeeps(show, c.row, c.call);
          SucceedsInPlace(c.row, Apply(show, c.row, c.call).value);
          PutKeeps(s, Apply(show, c.row, c.call).value);
        }
    }
  }

  lemma SucceedsInPlace(row: GeoRun, next: GeoRun)
    requires Succeeds(row, next)
    ensures next.sessionId == row.sessionId && next.runId == row.runId
  {
  }

  lemma StartIsFresh(current: Option<GeoRun>, sessionId: string, subject: string, runId: string)
    requires var r := StartRow(current, sessionId, subject, runId); r.Ok? && Some(r.value) != current
    ensures var row := StartRow(current, sessionId, subject, runId).value;
      row == FreshRun(sessionId, runId, Strip(subject)) && RowOk(row) && row.runId == runId && row.sessionId == sessionId
      && row.phase == Preflight && row.config == map[]
  {
    FreshRunOk(sessionId, runId, Strip(subject));
    hide RowOk, Strip;
  }

  // ---- Runs ------------------------------------------------------------------------------------

  predicate Leads(show: Value -> string, s: System, a: Action, t: System) {
    Enabled(s, a) && t == Next(show, s, a)
  }

  /** A run of the concurrent system: states and the actions between them. */
  predicate Run(show: Value -> string, states: seq<System>, actions: seq<Action>) {
    && |states| == |actions| + 1
    && states[0] == INITIAL
    && forall k {:trigger actions[k]} | 0 <= k < |actions| :: Leads(show, states[k], actions[k], states[k + 1])
  }

  lemma RunStep(show: Value -> string, states: seq<System>, actions: seq<Action>, k: nat)
    requires Run(show, states, actions) && k < |actions|
    ensures Enabled(states[k], actions[k]) && states[k + 1] == Next(show, states[k], actions[k])
  {
    assert Leads(show, states[k], actions[k], states[k + 1]);
  }

  lemma RunInv(show: Value -> string, states: seq<System>, actions: seq<Action>, j: nat)
    requires Run(show, states, actions) && j < |states|
    ensures Inv(states[j])
    ensures forall i | 0 <= i <= j :: states[i].written <= states[j].written
  {
    hide Inv, Enabled, Next;
    if j == 0 {
      InitialInv();
    } else {
      RunInv(show, states, actions, j - 1);
      RunStep(show, states, actions, j - 1);
      NextKeeps(show, states[j - 1], actions[j - 1]);
    }
  }

  /** Over a whole run a run id and revision name one content, though every new run of a
      session starts again at revision 0; and once a run has left PREFLIGHT its frozen
      settings are the same in every later state. */
  lemma VersionsNameOneContent(
    show: Value -> string, states: seq<System>, actions: seq<Action>, i: nat, j: nat, p: string, q: string)
    requires Run(show, states, actions) && i <= j < |states|
    requires p in states[i].rows && q in states[j].rows && states[i].rows[p].runId == states[j].rows[q].runId
    ensures var v, w := states[i].rows[p], states[j].rows[q];
      && p == q
      && RowOk(v) && RowOk(w)
      && (v.revision == w.revision ==> v == w)
      && v.revision <= w.revision
      && PhaseRank(v.phase) <= PhaseRank(w.phase)
      && (v.phase != Preflight ==> FrozenPart(v) == FrozenPart(w))
  {
    hide Inv, Run;
    RunInv(show, states, actions, i);
    RunInv(show, states, actions, j);
    StoredIsWritten(states[i], p);
    SameRunOrdered(states[j], states[i].rows[p], p, q);
  }

  lemma StoredIsWritten(s: System, id: string)
    requires Inv(s) && id in s.rows
    ensures s.rows[id] in s.written && s.rows[id].sessionId == id
  {
  }

  lemma SameRunOrdered(s: System, v: GeoRun, p: string, q: string)
    requires Inv(s) && v in s.written && v.sessionId == p && q in s.rows && s.rows[q].runId == v.runId
    ensures var w := s.rows[q];
      && p == q && RowOk(v) && RowOk(w)
      && (v.revision == w.revision ==> v == w)
      && v.revision <= w.revision
      && PhaseRank(v.phase) <= PhaseRank(w.phase)
      && (v.phase != Preflight ==> FrozenPart(v) == FrozenPart(w))
  {
    hide RowOk, FrozenPart;
    assert s.rows[q] in s.written;
  }

  // ---- Refinement of the atomic store ------------------------------------------------------

  /** One operation performed without interruption on the table. */
  ghost predicate AtomicStep(show: Value -> string, rows: map<string, GeoRun>, after: map<string, GeoRun>) {
    || (exists id, call :: Performed(show, rows, after, id, call))
    || (exists id, subject, runId :: Started(rows, after, id, subject, runId))
  }

  predicate Performed(show: Value -> string, rows: map<string, GeoRun>, after: map<string, GeoRun>, id: string, call: Call) {
    id in rows && Apply(show, rows[id], call).Ok? && after == rows[id := Apply(show, rows[id], call).value]
  }

  predicate Started(rows: map<string, GeoRun>, after: map<string, GeoRun>, id: string, subject: string, runId: string) {
    var r := StartRow(if id in rows then Some(rows[id]) else None, id, subject, runId);
    r.Ok? && after == rows[id := r.value]
  }

  /** Every action either leaves the table alone or is one whole operation on it: a write
      was computed from exactly the row it replaces. */
  lemma EveryActionIsAtomic(show: Value -> string, s: System, a: Action)
    requires Inv(s) && Enabled(s, a)
    ensures var t := Next(show, s, a);
      t.rows == s.rows || AtomicStep(show, s.rows, t.rows)
    ensures a.Commit? && Wins(show, s, a.caller) ==>
      var c := CallerAt(s, a.caller);
      Performed(show, s.rows, Next(show, s, a).rows, c.row.sessionId, c.call) && s.rows[c.row.sessionId] == c.row
  {
    hide Apply, RowOk, StartRow, Inv, Overwritten;
    match a {
      case Start(id, subject, runId) =>
        var r := StartRow(Current(s, id), id, subject, runId);
        if r.Ok? && Some(r.value) != Current(s, id) {
          StartIsFresh(Current(s, id), id, subject, runId);
          assert Started(s.rows, Next(show, s, a).rows, id, subject, runId);
        }
      case Read(i, sessionId, call) =>
      case Authorize(i, sessionId, ref) =>
      case Check(i, sessionId, ref) =>
      case ReadChecked(i) =>
      case Commit(i) =>
        if Wins(show, s, i) {
          var c := CallerAt(s, i);
          WinnerHoldsCurrent(show, s, i);
          ApplyKeeps(show, c.row, c.call);
          SucceedsInPlace(c.row, Apply(show, c.row, c.call).value);
          assert Performed(show, s.rows, Next(show, s, a).rows, c.row.sessionId, c.call);
        }
    }
  }

  /** The tables of a run form a run of the atomic store, up to steps that change nothing. */
  lemma RefinesAtomicStore(show: Value -> string, states: seq<System>, actions: seq<Action>)
    requires Run(show, states, actions)
    ensures states[0].rows == map[]
    ensures forall k, l | 0 <= k < l < |states| && l == k + 1 ::
      states[l].rows == states[k].rows || AtomicStep(show, states[k].rows, states[l].rows)
  {
    hide Enabled, Next, AtomicStep, Inv;
    forall k, l | 0 <= k < l < |states| && l == k + 1
      ensures states[l].rows == states[k].rows || AtomicStep(show, states[k].rows, states[l].rows)
    {
      RunInv(show, states, actions, k);
      RunStep(show, states, actions, k);
      EveryActionIsAtomic(show, states[k], actions[k]);
    }
  }

  // ---- Operator approval ------------------------------------------------------------------------

  /** The action stores an operator's approval receipt in the given run. */
  predicate ApprovesRun(show: Value -> string, s: System, a: Action, runId: string) {
    a.Commit? && Wins(show, s, a.caller)
    && var c := CallerAt(s, a.caller); c.actor == Operator && ApprovesLive(c.call) && c.row.runId == runId
  }

  predicate Unapproved(s: System, runId: string) {
    forall w | w in s.written && w.runId == runId :: APPROVAL !in w.config
  }

  predicate ToolsHoldToolCalls(s: System) {
    forall i | i in s.callers && s.callers[i].Holding? && s.callers[i].actor == Tool :: ToolMay(s.callers[i].call)
  }

  lemma UnapprovedKept(show: Value -> string, s: System, a: Action, runId: string)
    requires Inv(s) && Enabled(s, a) && Unapproved(s, runId) && ToolsHoldToolCalls(s)
    requires !ApprovesRun(show, s, a, runId)
    ensures Unapproved(Next(show, s, a), runId) && ToolsHoldToolCalls(Next(show, s, a))
  {
    hide Apply, RowOk, StartRow, Inv, Overwritten, ToolMay, ApprovesLive;
    match a {
      case Start(id, subject, runId') =>
        var r := StartRow(Current(s, id), id, subject, runId');
        if r.Ok? && Some(r.value) != Current(s, id) {
          StartIsFresh(Current(s, id), id, subject, runId');
        }
      case Read(i, sessionId, call) =>
      case Authorize(i, sessionId, ref) =>
      case Check(i, sessionId, ref) =>
      case ReadChecked(i) =>
      case Commit(i) =>
        if Wins(show, s, i) {
          var c := CallerAt(s, i);
          WinnerHoldsCurrent(show, s, i);
          ApplyKeeps(show, c.row, c.call);
          SucceedsInPlace(c.row, Apply(show, c.row, c.call).value);
          if c.row.runId == runId {
            HeldIsStored(s, i);
            ToolNeverApproves(c.call);
            ApprovalEnters(show, c.row, c.call);
          }
        }
    }
  }

  lemma HeldIsStored(s: System, i: nat)
    requires Inv(s) && CallerAt(s, i).Holding?
    ensures CallerAt(s, i).row in s.written && i in s.callers
  {
  }

  lemma ToolNeverApproves(call: Call)
    ensures ToolMay(call) ==> !ApprovesLive(call)
  {
  }

  /** The tool alone never takes a run out of PREFLIGHT: unless some action of the history
      stores an operator's approval in this very run, every row of the run is PREFLIGHT. */
  lemma ToolAloneStaysInPreflight(
    show: Value -> string, states: seq<System>, actions: seq<Action>, runId: string, j: nat, id: string)
    requires Run(show, states, actions) && j < |states|
    requires id in states[j].rows && states[j].rows[id].runId == runId
    requires states[j].rows[id].phase != Preflight
    ensures exists k :: 0 <= k < j && ApprovesRun(show, states[k], actions[k], runId)
  {
    RunInv(show, states, actions, j);
    var row := states[j].rows[id];
    assert RowOk(row) && row in states[j].written;
    assert APPROVAL in row.config by {
      KeysDiffer();
      hide FROZEN, APPROVAL;
    }
    hide RowOk, Inv, Enabled, Next, ApprovesRun, Run;
    if forall k | 0 <= k < j :: !ApprovesRun(show, states[k], actions[k], runId) {
      UnapprovedRun(show, states, actions, runId, j);
      assert false;
    }
  }

  lemma UnapprovedRun(show: Value -> string, states: seq<System>, actions: seq<Action>, runId: string, j: nat)
    requires Run(show, states, actions) && j < |states|
    requires forall k | 0 <= k < j :: !ApprovesRun(show, states[k], actions[k], runId)
    ensures Unapproved(states[j], runId) && ToolsHoldToolCalls(states[j])
  {
    hide Inv, Enabled, Next, ApprovesRun;
    if j > 0 {
      UnapprovedRun(show, states, actions, runId, j - 1);
      RunInv(show, states, actions, j - 1);
      RunStep(show, states, actions, j - 1);
      UnapprovedKept(show, states[j - 1], actions[j - 1], runId);
    }
  }

  // ---- The two reads of a preregistration ---------------------------------------------------

  /** A preregistration receipt held by an operator was read by a caller that had checked
      LIVE_OBSERVE before. */
  lemma {:induction false} ReceiptWasChecked(
    show: Value -> string, states: seq<System>, actions: seq<Action>, j: nat, i: nat, reference: string) returns (k: nat)
    requires Run(show, states, actions) && j < |states|
    requires CallerAt(states[j], i).Holding?
    requires CallerAt(states[j], i).actor == Operator && CallerAt(states[j], i).call == Receipt(PREREGISTRATION, reference)
    ensures k < j && actions[k] == ReadChecked(i) && CallerAt(states[k], i).Checked?
    ensures var c, held := CallerAt(states[k], i), CallerAt(states[j], i).row;
      && c.reference == reference && c.seen.sessionId in states[k].rows && held == states[k].rows[c.seen.sessionId]
    decreases j
  {
    hide Apply, StartRow, Overwritten, Receipt, ToolMay;
    RunStep(show, states, actions, j - 1);
    if actions[j - 1] == ReadChecked(i) {
      k := j - 1;
      ReceiptsDiffer(CallerAt(states[k], i).reference, reference);
    } else {
      if actions[j - 1].Authorize? {
        ReceiptsDiffer(actions[j - 1].reference, reference);
      }
      assert CallerAt(states[j - 1], i) == CallerAt(states[j], i);
      k := ReceiptWasChecked(show, states, actions, j - 1, i, reference);
    }
  }

  lemma ReceiptsDiffer(a: string, b: string)
    ensures Receipt(APPROVAL, a) != Receipt(PREREGISTRATION, b)
    ensures Receipt(PREREGISTRATION, a) == Receipt(PREREGISTRATION, b) ==> a == b
  {
    KeysDiffer();
    var m, n, o := map[APPROVAL := Text(a)], map[PREREGISTRATION := Text(b)], map[PREREGISTRATION := Text(a)];
    assert APPROVAL in m && APPROVAL !in n;
    assert n[PREREGISTRATION] == Text(b) && o[PREREGISTRATION] == Text(a);
  }

  /** A preregistration writes its receipt outside LIVE_OBSERVE exactly when its version is
      still stored, the text is acceptable, and its second read saw PREFLIGHT; and then the
      run it checked had been replaced by another. */
  lemma PreregistrationLands(
    show: Value -> string, states: seq<System>, actions: seq<Action>, j: nat, i: nat, reference: string) returns (k: nat)
    requires Run(show, states, actions) && j < |states| && CallerAt(states[j], i).Holding?
    requires CallerAt(states[j], i).actor == Operator && CallerAt(states[j], i).call == Receipt(PREREGISTRATION, reference)
    ensures k < j && actions[k] == ReadChecked(i) && CallerAt(states[k], i).Checked?
    ensures var seen, held := CallerAt(states[k], i).seen, CallerAt(states[j], i).row;
      && seen.phase == LiveObserve && seen.sessionId in states[k].rows && held == states[k].rows[seen.sessionId]
      && (Wins(show, states[j], i) && states[j].rows[held.sessionId].phase != LiveObserve <==>
            && held.sessionId in states[j].rows && SameVersion(states[j].rows[held.sessionId], held)
            && GoodText(Strip(reference), SETTING_LIMIT) && held.phase == Preflight)
      && (held.phase == Preflight ==> held.runId != seen.runId)
  {
    k := ReceiptWasChecked(show, states, actions, j, i, reference);
    RunInv(show, states, actions, k);
    RunInv(show, states, actions, j);
    var held := CallerAt(states[j], i).row;
    CheckedIsLive(states[k], i);
    CheckedStillRuns(states[k], i);
    ReceiptNeedsOpenPhase(show, held, reference);
    HeldVersion(states[j], i);
    hide Run, Inv, Apply, Receipt, GoodText, Strip;
  }

  lemma CheckedIsLive(s: System, i: nat)
    requires Inv(s) && CallerAt(s, i).Checked?
    ensures CallerAt(s, i).seen.phase == LiveObserve
  {
    assert i in s.callers;
    hide RowOk, OneContent, CurrentIsLatest;
  }

  lemma HeldVersion(s: System, i: nat)
    requires Inv(s) && CallerAt(s, i).Holding?
    ensures var row := CallerAt(s, i).row;
      row.sessionId in s.rows && SameVersion(s.rows[row.sessionId], row) ==> s.rows[row.sessionId] == row
  {
    hide RowOk, FrozenPart;
    var row := CallerAt(s, i).row;
    assert row in s.written;
    if row.sessionId in s.rows {
      assert s.rows[row.sessionId] in s.written;
    }
  }

  lemma CheckedStillRuns(s: System, i: nat)
    requires Inv(s) && CallerAt(s, i).Checked? && CallerAt(s, i).seen.sessionId in s.rows
    ensures var seen := CallerAt(s, i).seen;
      seen.sessionId in s.rows && (s.rows[seen.sessionId].runId == seen.runId ==> s.rows[seen.sessionId].phase != Preflight)
  {
    hide RowOk, FrozenPart;
    var seen := CallerAt(s, i).seen;
    assert i in s.callers && seen in s.written && s.rows[seen.sessionId] in s.written;
  }

  lemma ReceiptNeedsOpenPhase(show: Value -> string, row: GeoRun, reference: string)
    ensures var r := Apply(show, row, Receipt(PREREGISTRATION, reference));
      && (r.Ok? <==> row.phase in {Preflight, LiveObserve} && GoodText(Strip(reference), SETTING_LIMIT))
      && (r.Ok? ==> r.value == row.(config := row.config[PREREGISTRATION := Word(Strip(reference))], revision := row.revision + 1))
  {
    KeysDiffer();
    hide Strip, GoodText, FROZEN;
    assert PREREGISTRATION != REPETITIONS && PREREGISTRATION in ALLOWED;
    var entries := map[PREREGISTRATION := Text(reference)];
    assert entries.Keys == {PREREGISTRATION};
    hide PREREGISTRATION, REPETITIONS, ALLOWED;
    if SettingsClean(show, entries) {
      assert CleanSetting(show, PREREGISTRATION, entries[PREREGISTRATION]).Ok?;
      assert row.config + Settings(show, entries) == row.config[PREREGISTRATION := Word(Strip(reference))];
    }
  }

  /** The check and the write are two reads, so the receipt can miss: let the checked run
      complete and a new one start in between, and the receipt ends up in PREFLIGHT. */
  lemma PreregistrationMisses(show: Value -> string, s: System, i: nat, subject: string, runId: string)
    requires Inv(s) && CallerAt(s, i).Checked? && CallerAt(s, i).seen.sessionId in s.rows
    requires s.rows[CallerAt(s, i).seen.sessionId].phase == Complete && CallerAt(s, i).seen.sessionId != ""
    requires GoodText(Strip(subject), SUBJECT_LIMIT) && GoodText(Strip(CallerAt(s, i).reference), SETTING_LIMIT)
    requires !UsedRunId(s, runId)
    ensures var id := CallerAt(s, i).seen.sessionId;
      && Enabled(s, Start(id, subject, runId))
      && var s1 := Next(show, s, Start(id, subject, runId));
      && Enabled(s1, ReadChecked(i))
      && var s2 := Next(show, s1, ReadChecked(i));
      && Enabled(s2, Commit(i))
      && var s3 := Next(show, s2, Commit(i));
      id in s3.rows && s3.rows[id].phase == Preflight && s3.rows[id].runId == runId && PREREGISTRATION in s3.rows[id].config
  {
    hide Strip, GoodText, Apply, RowOk, Inv, Receipt, FreshRun;
    var c := CallerAt(s, i);
    var id := c.seen.sessionId;
    var row := FreshRun(id, runId, Strip(subject));
    FreshRunOk(id, runId, Strip(subject));
    var s1 := Next(show, s, Start(id, subject, runId));
    assert s1.rows[id] == row;
    ReceiptNeedsOpenPhase(show, row, c.reference);
    var s2 := Next(show, s1, ReadChecked(i));
    assert CallerAt(s2, i) == Holding(row, Receipt(PREREGISTRATION, c.reference), Operator);
    assert Wins(show, s2, i);
  }
}
