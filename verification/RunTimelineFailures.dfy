/** The shared timeline when appends fail: which failures can repeat an ordinal or disorder
    the file, and from which states every continuation is safe. */
module RunTimelineFailures {
  import opened Prelude
  import opened RunTimelines

  function Top(issued: seq<int>): int {
    if issued == [] then 0 else issued[|issued| - 1]
  }

  lemma IncreasingGrows(issued: seq<int>, n: int)
    requires Increasing(issued)
    ensures Increasing(issued + [n]) <==> issued == [] || n > Top(issued)
  {
    var more := issued + [n];
    if issued != [] && n <= Top(issued) {
      assert more[|issued| - 1] == Top(issued) && more[|issued|] == n;
    }
  }

  // ---- Ordinals that are never repeated ---------------------------------------------------

  /** A failure that does not leave the sidecar empty behind rows already numbered. */
  predicate KeepsCounter(w: World, a: Action) {
    (a.Crash? || a.Fail?) && At(w, a.id, Truncated) ==> w.issued == []
  }

  predicate CounterAhead(sidecar: Sidecar, issued: seq<int>) {
    match sidecar
    case Empty => issued == []
    case Number(n) => n >= Top(issued)
    case Unreadable => false
  }

  predicate HolderAhead(w: World) {
    match w.lock
    case None => CounterAhead(w.disk.sidecar, w.issued)
    case Some(id) =>
      && Holds(w, id)
      && var p := w.processes[id];
      (match p.stage
       case Outside => false
       case Numbered => p.last > Top(w.issued) && CounterAhead(w.disk.sidecar, w.issued)
       case Truncated => p.last > Top(w.issued) && w.disk.sidecar == Empty
       case Counted => p.last > Top(w.issued) && w.disk.sidecar == Number(p.last)
       case Stored => p.last == Top(w.issued) && w.disk.sidecar == Number(p.last))
  }

  predicate OneHolder(w: World) {
    forall id | id in w.processes :: w.processes[id].stage != Outside ==> w.lock == Some(id)
  }

  predicate Ahead(w: World) {
    && Increasing(w.issued) && (forall n | n in w.issued :: n > 0)
    && HolderAhead(w) && OneHolder(w)
  }

  lemma NextAhead(maxBytes: nat, w: World, a: Action)
    requires Ahead(w) && Enabled(w, a) && KeepsCounter(w, a)
    ensures Ahead(Next(maxBytes, w, a))
  {
    hide Size, Compacted, LastOrdinal;
    assert Top(w.issued) >= 0 by {
      if w.issued != [] {
        assert w.issued[|w.issued| - 1] in w.issued;
      }
    }
    match a {
      case Store(id, size) => IncreasingGrows(w.issued, w.processes[id].last); hide Increasing;
      case _ => hide Increasing;
    }
  }

  lemma RunAhead(maxBytes: nat, worlds: seq<World>, actions: seq<Action>, j: nat)
    requires Run(maxBytes, worlds, actions) && j < |worlds|
    requires forall k | 0 <= k < j :: KeepsCounter(worlds[k], actions[k])
    ensures Ahead(worlds[j])
  {
    hide Enabled, Next;
    if j > 0 {
      RunAhead(maxBytes, worlds, actions, j - 1);
      hide Ahead, KeepsCounter;
      assert Leads(maxBytes, worlds[j - 1], actions[j - 1], worlds[j]);
      NextAhead(maxBytes, worlds[j - 1], actions[j - 1]);
    }
  }

  /** In every run in which no append that has already truncated the sidecar fails before it
      has written it, whatever else fails or dies, no ordinal is given out twice. */
  lemma OnlyTruncationRepeats(maxBytes: nat, worlds: seq<World>, actions: seq<Action>, j: nat)
    requires Run(maxBytes, worlds, actions) && j < |worlds|
    requires forall k | 0 <= k < j :: KeepsCounter(worlds[k], actions[k])
    ensures Increasing(worlds[j].issued)
  {
    RunAhead(maxBytes, worlds, actions, j);
  }

  // ---- Going on after a failure ------------------------------------------------------------

  predicate Quiet(w: World) {
    w.lock == None && forall id | id in w.processes :: w.processes[id].stage == Outside
  }

  /** Nobody holds the lock in a quiet world, and no world without a holder is otherwise. */
  lemma ReachableQuiet(maxBytes: nat, worlds: seq<World>, actions: seq<Action>, j: nat)
    requires Run(maxBytes, worlds, actions) && j < |worlds|
    ensures OneHolder(worlds[j])
    ensures worlds[j].lock == None ==> Quiet(worlds[j])
  {
    hide Compacted, Size, Reading, LastOrdinal;
    if j > 0 {
      ReachableQuiet(maxBytes, worlds, actions, j - 1);
      assert Leads(maxBytes, worlds[j - 1], actions[j - 1], worlds[j]);
    }
  }

  /** Actions that neither fail nor crash, from a given world. */
  predicate Continues(maxBytes: nat, w: World, worlds: seq<World>, actions: seq<Action>) {
    && |worlds| == |actions| + 1
    && worlds[0] == w
    && forall k {:trigger actions[k]} | 0 <= k < |actions| ::
      Leads(maxBytes, worlds[k], actions[k], worlds[k + 1]) && !actions[k].Crash? && !actions[k].Fail?
  }

  /** Whoever comes next has seen the last ordinal: the counter as it is read, a live
      process, and the last row, which a new process would read. */
  predicate Resumes(w: World) {
    var counter := Reading(w.disk.sidecar, w.disk.rows);
    w.issued != [] ==>
      && Max(LastOrdinal(w.disk.rows), counter) >= Top(w.issued)
      && forall id | id in w.processes :: Max(w.processes[id].last, counter) >= Top(w.issued)
  }

  predicate Newer(n: int, issued: seq<int>) { issued == [] || n > Top(issued) }

  predicate Secure(w: World) {
    && Increasing(w.issued) && OneHolder(w)
    && match w.lock
       case None => Resumes(w)
       case Some(id) =>
         && Holds(w, id)
         && var p := w.processes[id];
         (match p.stage
          case Outside => false
          case Numbered => Newer(p.last, w.issued)
          case Truncated => Newer(p.last, w.issued)
          case Counted => Newer(p.last, w.issued) && w.disk.sidecar == Number(p.last)
          case Stored => w.issued != [] && p.last == Top(w.issued) && w.disk.sidecar == Number(p.last))
  }

  lemma NextSecure(maxBytes: nat, w: World, a: Action)
    requires Secure(w) && Enabled(w, a) && !a.Crash? && !a.Fail?
    ensures Secure(Next(maxBytes, w, a))
  {
    hide Size, Compacted, LastOrdinal;
    match a {
      case Store(id, size) => IncreasingGrows(w.issued, w.processes[id].last); hide Increasing;
      case _ => hide Increasing;
    }
  }

  lemma StaysSecure(maxBytes: nat, w: World, worlds: seq<World>, actions: seq<Action>, j: nat)
    requires Secure(w) && Continues(maxBytes, w, worlds, actions) && j < |worlds|
    ensures Secure(worlds[j])
  {
    hide Secure, Enabled, Next;
    if j > 0 {
      StaysSecure(maxBytes, w, worlds, actions, j - 1);
      assert Leads(maxBytes, worlds[j - 1], actions[j - 1], worlds[j]);
      NextSecure(maxBytes, worlds[j - 1], actions[j - 1]);
    }
  }

  lemma UnusedId(used: set<nat>) returns (id: nat)
    ensures id !in used
  {
    id := Bound(used);
  }

  lemma {:induction false} Bound(used: set<nat>) returns (bound: nat)
    ensures forall i | i in used :: i < bound
    decreases used
  {
    if used == {} {
      return 0;
    }
    var some :| some in used;
    var below := Bound(used - {some});
    bound := if below <= some then some + 1 else below;
    forall i | i in used
      ensures i < bound
    {
      assert i == some || i in used - {some};
    }
  }

  /** The next append of a process issues one above what it and the counter say. */
  lemma AppendIssues(maxBytes: nat, w: World, id: nat) returns (worlds: seq<World>, actions: seq<Action>)
    requires Quiet(w) && id in w.processes
    ensures Continues(maxBytes, w, worlds, actions)
    ensures worlds[|worlds| - 1].issued ==
      w.issued + [Max(w.processes[id].last, Reading(w.disk.sidecar, w.disk.rows)) + 1]
  {
    hide Size, Compacted, Reading, LastOrdinal;
    StepsAreAppend(maxBytes, w, id, 0, 0);
    var w1 := Next(maxBytes, w, TakeNumber(id));
    var w2 := Next(maxBytes, w1, Truncate(id));
    var w3 := Next(maxBytes, w2, Count(id));
    var w4 := Next(maxBytes, w3, Store(id, 0));
    var w5 := Next(maxBytes, w4, Leave(id, 0));
    hide Next, Enabled;
    worlds := [w, w1, w2, w3, w4, w5];
    actions := [TakeNumber(id), Truncate(id), Count(id), Store(id, 0), Leave(id, 0)];
  }

  /** If somebody could come next without having seen the last ordinal, somebody can repeat
      or undercut it. */
  lemma UnseenRepeats(maxBytes: nat, w: World) returns (worlds: seq<World>, actions: seq<Action>)
    requires Quiet(w) && Increasing(w.issued) && !Resumes(w)
    ensures Continues(maxBytes, w, worlds, actions) && !Increasing(worlds[|worlds| - 1].issued)
  {
    var counter := Reading(w.disk.sidecar, w.disk.rows);
    hide Reading, LastOrdinal, Size, Compacted, Increasing;
    if id :| id in w.processes && Max(w.processes[id].last, counter) < Top(w.issued) {
      worlds, actions := AppendIssues(maxBytes, w, id);
      IncreasingGrows(w.issued, Max(w.processes[id].last, counter) + 1);
    } else {
      var id := UnusedId(w.processes.Keys);
      var joined := Next(maxBytes, w, Construct(id));
      worlds, actions := AppendIssues(maxBytes, joined, id);
      IncreasingGrows(w.issued, Max(LastOrdinal(w.disk.rows), counter) + 1);
      Prepended(maxBytes, w, Construct(id), joined, worlds, actions);
      worlds, actions := [w] + worlds, [Construct(id)] + actions;
    }
  }

  lemma Prepended(maxBytes: nat, w: World, a: Action, t: World, worlds: seq<World>, actions: seq<Action>)
    requires Leads(maxBytes, w, a, t) && !a.Crash? && !a.Fail? && Continues(maxBytes, t, worlds, actions)
    ensures Continues(maxBytes, w, [w] + worlds, [a] + actions)
    ensures ([w] + worlds)[|worlds|] == worlds[|worlds| - 1]
  {
    hide Leads;
    var more, acts := [w] + worlds, [a] + actions;
    forall k | 0 <= k < |acts|
      ensures Leads(maxBytes, more[k], acts[k], more[k + 1]) && !acts[k].Crash? && !acts[k].Fail?
    {
      if k > 0 {
        assert acts[k] == actions[k - 1] && more[k] == worlds[k - 1] && more[k + 1] == worlds[k];
      }
    }
  }

  /** Where nobody holds the lock and nothing has been repeated yet: no continuation without
      a further failure repeats an ordinal if and only if whoever comes next has seen the
      last one. */
  lemma SafeToGoOnIff(maxBytes: nat, w: World)
    requires Quiet(w) && Increasing(w.issued)
    ensures Resumes(w) <==>
      forall worlds: seq<World>, actions: seq<Action> | Continues(maxBytes, w, worlds, actions) ::
        Increasing(worlds[|worlds| - 1].issued)
  {
    if Resumes(w) {
      forall worlds: seq<World>, actions: seq<Action> | Continues(maxBytes, w, worlds, actions)
        ensures Increasing(worlds[|worlds| - 1].issued)
      {
        StaysSecure(maxBytes, w, worlds, actions, |worlds| - 1);
      }
    } else {
      hide Continues, Increasing, Resumes;
      var worlds, actions := UnseenRepeats(maxBytes, w);
    }
  }

  /** As long as no failure has left the counter empty, whoever comes next has seen the last
      ordinal. */
  lemma CounterResumes(w: World)
    requires Ahead(w) && w.lock == None
    ensures Resumes(w)
  {
    hide LastOrdinal, Increasing;
  }

  // ---- What a gap does to the file ------------------------------------------------------------

  predicate Consecutive(rows: seq<Row>) {
    forall i | 0 <= i < |rows| :: rows[i].ordinal == rows[|rows| - 1].ordinal - (|rows| - 1 - i)
  }

  lemma {:induction false} Spread(rows: seq<Row>, i: nat, j: nat)
    requires StrictlyIncreasing(rows) && i <= j < |rows|
    ensures rows[j].ordinal - rows[i].ordinal >= j - i
    decreases j
  {
    if i < j {
      Spread(rows, i, j - 1);
    }
  }

  lemma ConsecutiveBySpan(rows: seq<Row>)
    requires StrictlyIncreasing(rows) && rows != []
    ensures Consecutive(rows) <==> rows[0].ordinal == rows[|rows| - 1].ordinal - (|rows| - 1)
  {
    forall i | 0 <= i < |rows|
      ensures rows[0].ordinal == rows[|rows| - 1].ordinal - (|rows| - 1) ==>
        rows[i].ordinal == rows[|rows| - 1].ordinal - (|rows| - 1 - i)
    {
      Spread(rows, 0, i);
      Spread(rows, i, |rows| - 1);
    }
    hide StrictlyIncreasing;
  }

  function KeptRows(rows: seq<Row>, maxBytes: nat): seq<Row> {
    rows[|rows| - Kept(rows, maxBytes)..]
  }

  lemma KeptOrdered(rows: seq<Row>, maxBytes: nat)
    requires StrictlyIncreasing(rows) && rows != [] && Size(rows) > maxBytes >= 1
    requires rows[0].ordinal >= 0 && LastOrdinal(rows) > 0
    ensures var kept := KeptRows(rows, maxBytes);
      && kept != [] && StrictlyIncreasing(kept) && kept[0].ordinal > 0
      && kept[|kept| - 1].ordinal == LastOrdinal(rows)
  {
    KeptIsLess(rows, maxBytes);
    hide Size, KeptFrom, Budget, Kept;
    var kept := KeptRows(rows, maxBytes);
    assert forall i | 0 <= i < |kept| :: kept[i] == rows[|rows| - |kept| + i];
  }

  lemma CompactedIs(rows: seq<Row>, maxBytes: nat, ordinal: int, markerSize: nat)
    ensures var out, kept := Compacted(rows, maxBytes, ordinal, markerSize), KeptRows(rows, maxBytes);
      var marker := Row(Max(0, ordinal - |kept|), markerSize);
      out == [marker] || (|kept| > 0 && out == [marker] + kept)
  {
    hide Size, KeptFrom, Budget, Kept;
  }

  /** The marker is numbered by how many rows stay, so a file compacted to a marker and rows
      is still in order if and only if those rows are numbered without a gap. */
  lemma CompactionOrderedIff(rows: seq<Row>, maxBytes: nat, markerSize: nat)
    requires StrictlyIncreasing(rows) && rows != [] && Size(rows) > maxBytes >= 1
    requires rows[0].ordinal >= 0 && LastOrdinal(rows) > 0
    ensures var out := Compacted(rows, maxBytes, LastOrdinal(rows), markerSize);
      StrictlyIncreasing(out) <==> |out| == 1 || Consecutive(KeptRows(rows, maxBytes))
  {
    hide *;
    KeptOrdered(rows, maxBytes);
    CompactedIs(rows, maxBytes, LastOrdinal(rows), markerSize);
    var kept := KeptRows(rows, maxBytes);
    MarkerThenKept(Row(Max(0, LastOrdinal(rows) - |kept|), markerSize), kept);
    MarkerAlone(Compacted(rows, maxBytes, LastOrdinal(rows), markerSize));
  }

  lemma MarkerAlone(out: seq<Row>)
    ensures |out| == 1 ==> StrictlyIncreasing(out)
  {
  }

  lemma MarkerThenKept(marker: Row, kept: seq<Row>)
    requires StrictlyIncreasing(kept) && kept != [] && kept[0].ordinal > 0
    requires marker.ordinal == Max(0, kept[|kept| - 1].ordinal - |kept|)
    ensures StrictlyIncreasing([marker] + kept) <==> Consecutive(kept)
  {
    ConsecutiveBySpan(kept);
    Spread(kept, 0, |kept| - 1);
    MarkerFirst(marker, kept);
    hide StrictlyIncreasing, Consecutive;
  }

  lemma MarkerFirst(marker: Row, kept: seq<Row>)
    requires StrictlyIncreasing(kept) && kept != []
    ensures StrictlyIncreasing([marker] + kept) <==> marker.ordinal < kept[0].ordinal
  {
    var all := [marker] + kept;
    assert all[0] == marker && all[1] == kept[0];
    forall i, j | 0 <= i < j < |all|
      ensures marker.ordinal < kept[0].ordinal ==> all[i].ordinal < all[j].ordinal
    {
      if i > 0 {
        assert all[i] == kept[i - 1] && all[j] == kept[j - 1];
      } else if j > 1 {
        assert all[j] == kept[j - 1] && kept[0].ordinal < kept[j - 1].ordinal;
      }
    }
  }

  // ---- Runs with a failure ---------------------------------------------------------------------

  ghost predicate Reachable(maxBytes: nat, w: World) {
    exists worlds: seq<World>, actions: seq<Action> :: Run(maxBytes, worlds, actions) && worlds[|worlds| - 1] == w
  }

  lemma ReachNext(maxBytes: nat, w: World, a: Action)
    requires Reachable(maxBytes, w) && Enabled(w, a)
    ensures Reachable(maxBytes, Next(maxBytes, w, a))
  {
    hide Enabled, Next;
    var worlds: seq<World>, actions: seq<Action> :| Run(maxBytes, worlds, actions) && worlds[|worlds| - 1] == w;
    var t := Next(maxBytes, w, a);
    var more, acts := worlds + [t], actions + [a];
    forall k | 0 <= k < |acts|
      ensures Leads(maxBytes, more[k], acts[k], more[k + 1])
    {
      if k < |actions| {
        assert Leads(maxBytes, worlds[k], actions[k], worlds[k + 1]);
      }
    }
    assert Run(maxBytes, more, acts) && more[|more| - 1] == t;
  }

  predicate RepeatsRow(w: World) {
    |w.disk.rows| == 2 && w.disk.rows[0].ordinal == w.disk.rows[1].ordinal
  }

  /** A process that dies between truncating and writing the sidecar makes another one, that
      was constructed on the empty file, give out an ordinal again. */
  lemma CrashRepeatsOrdinal(maxBytes: nat, size: nat)
    requires size <= maxBytes
    ensures exists w :: Reachable(maxBytes, w) && RepeatsRow(w)
  {
    hide Reachable, Size, Compacted;
    var w := OneRow(maxBytes, size);
    ReachNext(maxBytes, w, Crash(0));
    w := Next(maxBytes, w, Crash(0));
    assert w.disk == Disk([Row(1, size)], Empty) && w.lock == None;
    assert w.processes == map[1 := Process(0, Outside)];
    ReachNext(maxBytes, w, TakeNumber(1));
    w := Next(maxBytes, w, TakeNumber(1));
    ReachNext(maxBytes, w, Truncate(1));
    w := Next(maxBytes, w, Truncate(1));
    ReachNext(maxBytes, w, Count(1));
    w := Next(maxBytes, w, Count(1));
    ReachNext(maxBytes, w, Store(1, size));
    w := Next(maxBytes, w, Store(1, size));
    assert RepeatsRow(w);
  }

  /** Two processes; the first has stored its row and numbered the next; the sidecar is
      truncated. */
  lemma OneRow(maxBytes: nat, size: nat) returns (w: World)
    requires size <= maxBytes
    ensures Reachable(maxBytes, w)
    ensures w.disk == Disk([Row(1, size)], Empty) && w.lock == Some(0)
    ensures w.processes.Keys == {0, 1} && w.processes[1] == Process(0, Outside)
  {
    assert Run(maxBytes, [NOTHING], []) && [NOTHING][|[NOTHING]| - 1] == NOTHING;
    hide Reachable, Size, Compacted, LastOrdinal;
    assert LastOrdinal([]) == 0 by { NoRows(); }
    ReachNext(maxBytes, NOTHING, Construct(0));
    w := Next(maxBytes, NOTHING, Construct(0));
    ReachNext(maxBytes, w, Construct(1));
    w := Next(maxBytes, w, Construct(1));
    assert w.processes == map[0 := Process(0, Outside), 1 := Process(0, Outside)];
    ReachNext(maxBytes, w, TakeNumber(0));
    w := Next(maxBytes, w, TakeNumber(0));
    assert w.processes[0] == Process(1, Numbered);
    ReachNext(maxBytes, w, Truncate(0));
    w := Next(maxBytes, w, Truncate(0));
    ReachNext(maxBytes, w, Count(0));
    w := Next(maxBytes, w, Count(0));
    ReachNext(maxBytes, w, Store(0, size));
    w := Next(maxBytes, w, Store(0, size));
    assert w.disk.rows == [Row(1, size)];
    SmallFile(Row(1, size), maxBytes);
    ReachNext(maxBytes, w, Leave(0, 0));
    w := Next(maxBytes, w, Leave(0, 0));
    assert w.processes == map[0 := Process(1, Outside), 1 := Process(0, Outside)];
    ReachNext(maxBytes, w, TakeNumber(0));
    w := Next(maxBytes, w, TakeNumber(0));
    ReachNext(maxBytes, w, Truncate(0));
    w := Next(maxBytes, w, Truncate(0));
  }

  lemma SmallFile(row: Row, maxBytes: nat)
    requires row.size <= maxBytes
    ensures Size([row]) <= maxBytes
  {
    assert [row][..0] == [];
  }

  lemma NoRows()
    ensures LastOrdinal([]) == 0
  {
  }

  // ---- A gap, and then a compaction ---------------------------------------------------------

  lemma AppendReaches(maxBytes: nat, w: World, id: nat, size: nat, markerSize: nat) returns (t: World)
    requires Reachable(maxBytes, w) && Enabled(w, TakeNumber(id))
    ensures Reachable(maxBytes, t)
    ensures var n := Max(w.processes[id].last, Reading(w.disk.sidecar, w.disk.rows)) + 1;
      && t.disk == Disk(AppendedRows(w.disk.rows, n, size, maxBytes, markerSize), Number(n))
      && t.processes == w.processes[id := Process(n, Outside)] && t.lock == None
      && t.issued == w.issued + [n]
  {
    hide Reachable, Size, Compacted, Reading, AppendedRows;
    StepsAreAppend(maxBytes, w, id, size, markerSize);
    ReachNext(maxBytes, w, TakeNumber(id));
    t := Next(maxBytes, w, TakeNumber(id));
    ReachNext(maxBytes, t, Truncate(id));
    t := Next(maxBytes, t, Truncate(id));
    ReachNext(maxBytes, t, Count(id));
    t := Next(maxBytes, t, Count(id));
    ReachNext(maxBytes, t, Store(id, size));
    t := Next(maxBytes, t, Store(id, size));
    ReachNext(maxBytes, t, Leave(id, markerSize));
    t := Next(maxBytes, t, Leave(id, markerSize));
  }

  /** Three processes, the first of which has issued two ordinals. */
  lemma TwoIssued(maxBytes: nat) returns (w: World)
    ensures Reachable(maxBytes, w) && w.lock == None && w.issued == [1, 2] && w.disk.sidecar == Number(2)
    ensures w.processes == map[0 := Process(2, Outside), 1 := Process(0, Outside), 2 := Process(0, Outside)]
  {
    assert Run(maxBytes, [NOTHING], []) && [NOTHING][|[NOTHING]| - 1] == NOTHING;
    assert LastOrdinal([]) == 0 by { NoRows(); }
    hide Reachable, Size, Compacted, LastOrdinal, AppendedRows;
    ReachNext(maxBytes, NOTHING, Construct(0));
    w := Next(maxBytes, NOTHING, Construct(0));
    ReachNext(maxBytes, w, Construct(1));
    w := Next(maxBytes, w, Construct(1));
    ReachNext(maxBytes, w, Construct(2));
    w := Next(maxBytes, w, Construct(2));
    w := AppendReaches(maxBytes, w, 0, 0, 0);
    w := AppendReaches(maxBytes, w, 0, 0, 0);
  }

  predicate NumberedBelow(w: World) {
    Quiet(w) && Increasing(w.issued) && w.disk.sidecar.Number? && !Resumes(w)
  }

  /** A number in the sidecar is not enough to go on safely: it may have been written by a
      process that read an empty one, and then died. */
  lemma NumberIsNotEnough(maxBytes: nat)
    ensures exists w :: Reachable(maxBytes, w) && NumberedBelow(w)
  {
    var w := TwoIssued(maxBytes);
    hide Reachable, Size, Compacted, LastOrdinal, NumberedBelow, Increasing, Quiet, Resumes;
    ReachNext(maxBytes, w, TakeNumber(0));
    w := Next(maxBytes, w, TakeNumber(0));
    ReachNext(maxBytes, w, Truncate(0));
    w := Next(maxBytes, w, Truncate(0));
    ReachNext(maxBytes, w, Crash(0));
    w := Next(maxBytes, w, Crash(0));
    assert w.processes == map[1 := Process(0, Outside), 2 := Process(0, Outside)];
    ReachNext(maxBytes, w, TakeNumber(1));
    w := Next(maxBytes, w, TakeNumber(1));
    ReachNext(maxBytes, w, Truncate(1));
    w := Next(maxBytes, w, Truncate(1));
    ReachNext(maxBytes, w, Count(1));
    w := Next(maxBytes, w, Count(1));
    ReachNext(maxBytes, w, Crash(1));
    w := Next(maxBytes, w, Crash(1));
    assert w.processes == map[2 := Process(0, Outside)];
    LowNumber(w);
  }

  lemma LowNumber(w: World)
    requires w.lock == None && w.issued == [1, 2] && w.disk.sidecar == Number(1)
    requires w.processes == map[2 := Process(0, Outside)]
    ensures NumberedBelow(w)
  {
    hide LastOrdinal;
    assert 2 in w.processes && Top(w.issued) == 2;
  }

  /** A failure after the sidecar is written leaves a gap, and the next compaction then puts
      the marker level with the first row it keeps. The sizes are any multiple of these. */
  lemma CountedFailureDisordersRows(unit: nat)
    requires unit >= 1
    ensures exists w :: Reachable(8 * unit, w) && !StrictlyIncreasing(w.disk.rows)
  {
    var maxBytes := 8 * unit;
    var a, b, c := Row(1, 5 * unit), Row(2, 2 * unit), Row(4, 2 * unit);
    GapSizes(unit, a, b, c);
    assert Run(maxBytes, [NOTHING], []) && [NOTHING][|[NOTHING]| - 1] == NOTHING;
    assert LastOrdinal([]) == 0;
    hide Reachable, Size, Compacted, LastOrdinal;
    ReachNext(maxBytes, NOTHING, Construct(0));
    var w := Next(maxBytes, NOTHING, Construct(0));
    w := AppendReaches(maxBytes, w, 0, 5 * unit, unit);
    assert w.disk.rows == [a];
    w := AppendReaches(maxBytes, w, 0, 2 * unit, unit);
    assert w.disk.rows == [a, b];
    w := CountedFailure(maxBytes, w);
    w := AppendReaches(maxBytes, w, 0, 2 * unit, unit);
    assert w.disk.rows == [Row(2, unit), b, c];
    assert w.disk.rows[0].ordinal == w.disk.rows[1].ordinal;
  }

  lemma CountedFailure(maxBytes: nat, w: World) returns (t: World)
    requires Reachable(maxBytes, w) && w.lock == None && w.processes == map[0 := Process(2, Outside)]
    requires w.disk.sidecar == Number(2)
    ensures Reachable(maxBytes, t) && t.lock == None && t.processes == map[0 := Process(3, Outside)]
    ensures t.disk == Disk(w.disk.rows, Number(3))
  {
    hide Reachable, Size, Compacted, LastOrdinal;
    ReachNext(maxBytes, w, TakeNumber(0));
    t := Next(maxBytes, w, TakeNumber(0));
    ReachNext(maxBytes, t, Truncate(0));
    t := Next(maxBytes, t, Truncate(0));
    ReachNext(maxBytes, t, Count(0));
    t := Next(maxBytes, t, Count(0));
    ReachNext(maxBytes, t, Fail(0));
    t := Next(maxBytes, t, Fail(0));
  }

  lemma SizeOfMore(rows: seq<Row>, row: Row)
    ensures Size(rows + [row]) == Size(rows) + row.size
  {
    assert (rows + [row])[..|rows|] == rows;
  }

  lemma GapSizes(unit: nat, a: Row, b: Row, c: Row)
    requires unit >= 1 && a == Row(1, 5 * unit) && b == Row(2, 2 * unit) && c == Row(4, 2 * unit)
    ensures Size([a]) <= 8 * unit && Size([a, b]) <= 8 * unit < Size([a, b, c])
    ensures [] + [a] == [a] && [a] + [b] == [a, b] && [a, b] + [c] == [a, b, c]
    ensures Compacted([a, b, c], 8 * unit, 4, unit) == [Row(2, unit), b, c]
  {
    var rows := [a, b, c];
    assert [] + [a] == [a] && [a] + [b] == [a, b] && [a, b] + [c] == rows;
    SizeOfMore([], a);
    SizeOfMore([a], b);
    SizeOfMore([a, b], c);
    var marker := Row(2, unit);
    assert [] + [marker] == [marker] && [marker] + [b] == [marker, b] && [marker, b] + [c] == [marker, b, c];
    SizeOfMore([], marker);
    SizeOfMore([marker], b);
    SizeOfMore([marker, b], c);
    hide Size;
    assert Budget(8 * unit) == 4 * unit;
    assert KeptFrom(rows, 4 * unit, 2, 4 * unit) == 2;
    assert KeptFrom(rows, 4 * unit, 1, 2 * unit) == 2;
    assert Kept(rows, 8 * unit) == 2;
    hide Kept, KeptFrom;
    assert rows[1..] == [b, c];
    assert [marker] + rows[1..] == [marker, b, c];
  }
}
