/** The shared run timeline: rows numbered from a sidecar counter under a file lock, by any
    number of processes, with a compaction that replaces the oldest rows by a marker. */
module RunTimelines {
  import opened Prelude

  /** A row, told by its ordinal and its size on disk. */
  datatype Row = Row(ordinal: int, size: nat)

  /** The text of the sidecar: nothing, a number, or something unreadable. */
  datatype Sidecar = Empty | Number(value: int) | Unreadable

  function Max(a: int, b: int): int { if a < b then b else a }

  // ---- Compaction -------------------------------------------------------------------------------

  function Size(rows: seq<Row>): nat {
    if rows == [] then 0 else Size(rows[..|rows| - 1]) + rows[|rows| - 1].size
  }

  function Budget(maxBytes: nat): nat {
    if maxBytes / 2 < 1 then 1 else maxBytes / 2
  }

  /** How many rows the backward scan keeps, having kept `kept` of `retained` bytes. */
  function KeptFrom(rows: seq<Row>, budget: nat, kept: nat, retained: nat): (n: nat)
    requires kept <= |rows|
    ensures kept <= n <= |rows|
    decreases |rows| - kept
  {
    if kept == |rows| then kept
    else
      var size := rows[|rows| - 1 - kept].size;
      if kept > 0 && retained + size > budget then kept else KeptFrom(rows, budget, kept + 1, retained + size)
  }

  function Kept(rows: seq<Row>, maxBytes: nat): (n: nat)
    ensures n <= |rows|
  {
    KeptFrom(rows, Budget(maxBytes), 0, 0)
  }

  /** `compact_run_events`: a marker and the kept rows, or the marker alone. */
  function Compacted(rows: seq<Row>, maxBytes: nat, ordinal: int, markerSize: nat): seq<Row> {
    var n := Kept(rows, maxBytes);
    var marker := Row(Max(0, ordinal - n), markerSize);
    var all := [marker] + rows[|rows| - n..];
    if n > 0 && Size(all) <= maxBytes then all else [marker]
  }

  lemma {:induction false} SizeSplits(a: seq<Row>, b: seq<Row>)
    ensures Size(a + b) == Size(a) + Size(b)
  {
    if b == [] {
      assert a + b == a;
    } else {
      assert (a + b)[..|a + b| - 1] == a + b[..|b| - 1];
      SizeSplits(a, b[..|b| - 1]);
    }
  }

  lemma SizeFrom(rows: seq<Row>, at: nat)
    requires at < |rows|
    ensures Size(rows[at..]) == rows[at].size + Size(rows[at + 1..])
  {
    assert rows[at..] == [rows[at]] + rows[at + 1..];
    SizeSplits([rows[at]], rows[at + 1..]);
    assert [rows[at]][..0] == [];
  }

  lemma {:induction false} KeptFits(rows: seq<Row>, budget: nat, kept: nat, retained: nat)
    requires kept <= |rows| && retained == Size(rows[|rows| - kept..]) && (kept > 1 ==> retained <= budget)
    ensures var n := KeptFrom(rows, budget, kept, retained);
      n > 1 ==> Size(rows[|rows| - n..]) <= budget
    decreases |rows| - kept
  {
    if kept < |rows| {
      var at := |rows| - 1 - kept;
      SizeFrom(rows, at);
      hide Size;
      if !(kept > 0 && retained + rows[at].size > budget) {
        KeptFits(rows, budget, kept + 1, retained + rows[at].size);
      }
    }
  }

  /** A file that is too big is never kept whole, unless it is a single row. */
  lemma KeptIsLess(rows: seq<Row>, maxBytes: nat)
    requires Size(rows) > maxBytes >= 1
    ensures 0 < Kept(rows, maxBytes)
    ensures |rows| > 1 ==> Kept(rows, maxBytes) < |rows|
  {
    assert rows[|rows| - 0..] == [];
    KeptFits(rows, Budget(maxBytes), 0, 0);
    assert rows[|rows| - |rows|..] == rows;
  }

  function LastRows(rows: seq<Row>, n: nat): seq<Row>
    requires n <= |rows|
  {
    rows[|rows| - n..]
  }

  lemma MoreRows(rows: seq<Row>, n: nat, m: nat)
    requires n <= m <= |rows|
    ensures Size(LastRows(rows, n)) <= Size(LastRows(rows, m))
  {
    var more := rows[|rows| - m..|rows| - n];
    assert LastRows(rows, m) == more + LastRows(rows, n);
    SizeSplits(more, LastRows(rows, n));
  }

  lemma {:induction false} KeptStops(rows: seq<Row>, budget: nat, kept: nat, retained: nat)
    requires kept <= |rows| && retained == Size(rows[|rows| - kept..])
    ensures var n := KeptFrom(rows, budget, kept, retained);
      n < |rows| ==> 0 < n && Size(LastRows(rows, n + 1)) > budget
    decreases |rows| - kept
  {
    if kept < |rows| {
      var at := |rows| - 1 - kept;
      SizeFrom(rows, at);
      hide Size;
      if !(kept > 0 && retained + rows[at].size > budget) {
        KeptStops(rows, budget, kept + 1, retained + rows[at].size);
      }
    }
  }

  /** The scan keeps the last rows that fit into half the limit, and no fewer than that: one row
      if even that does not fit, and never so few that one more would still fit. */
  lemma KeptExactly(rows: seq<Row>, maxBytes: nat, n: nat)
    requires 0 < n <= |rows|
    ensures var budget := if maxBytes / 2 > 1 then maxBytes / 2 else 1;
      Kept(rows, maxBytes) == n <==>
        && (n == 1 || Size(LastRows(rows, n)) <= budget)
        && (n == |rows| || Size(LastRows(rows, n + 1)) > budget)
  {
    assert rows[|rows| - 0..] == [];
    KeptFits(rows, Budget(maxBytes), 0, 0);
    KeptStops(rows, Budget(maxBytes), 0, 0);
    var k := Kept(rows, maxBytes);
    if k < n {
      MoreRows(rows, k + 1, n);
    } else if n < k {
      MoreRows(rows, n + 1, k);
    }
    hide Size, KeptFrom;
  }

  /** And the marker goes in front of them, or stays alone where even so the file is too big. */
  lemma CompactedExactly(rows: seq<Row>, maxBytes: nat, ordinal: int, markerSize: nat, n: nat)
    requires 0 < n <= |rows| && Kept(rows, maxBytes) == n
    ensures var marker := Row(if ordinal > n then ordinal - n else 0, markerSize);
      Compacted(rows, maxBytes, ordinal, markerSize) ==
        if markerSize + Size(LastRows(rows, n)) <= maxBytes then [marker] + LastRows(rows, n) else [marker]
  {
    var marker := Row(if ordinal > n then ordinal - n else 0, markerSize);
    SizeSplits([marker], LastRows(rows, n));
    assert [marker][..0] == [];
    assert Size([marker]) == markerSize;
    hide Size, Kept;
  }

  // ---- Numbering ---------------------------------------------------------------------------------

  /** `_last_sequence`. */
  function LastOrdinal(rows: seq<Row>): int {
    if rows == [] then 0 else rows[|rows| - 1].ordinal
  }

  /** The counter as it is read: an empty sidecar is 0, not a reason to look at the rows. */
  function Reading(sidecar: Sidecar, rows: seq<Row>): int {
    match sidecar
    case Empty => 0
    case Number(n) => n
    case Unreadable => LastOrdinal(rows)
  }

  predicate StrictlyIncreasing(rows: seq<Row>) {
    forall i, j | 0 <= i < j < |rows| :: rows[i].ordinal < rows[j].ordinal
  }

  predicate Increasing(ordinals: seq<int>) {
    forall i, j | 0 <= i < j < |ordinals| :: ordinals[i] < ordinals[j]
  }

  /** The shape rows keep: numbered one after another up to `top`, but for a first row that
      may be a marker, below the rest. */
  predicate Tail(rows: seq<Row>, top: int) {
    && (forall i | 1 <= i < |rows| :: rows[i].ordinal == top - (|rows| - 1 - i))
    && (|rows| > 1 ==> 0 <= rows[0].ordinal < rows[1].ordinal)
    && (|rows| == 1 ==> 0 <= rows[0].ordinal <= top)
  }

  lemma TailIncreases(rows: seq<Row>, top: int)
    requires Tail(rows, top)
    ensures StrictlyIncreasing(rows) && (top >= 0 ==> LastOrdinal(rows) <= top)
  {
  }

  lemma TailAppends(rows: seq<Row>, top: int, size: nat)
    requires Tail(rows, top) && top >= 0
    ensures Tail(rows + [Row(top + 1, size)], top + 1)
    ensures LastOrdinal(rows + [Row(top + 1, size)]) == top + 1
  {
  }

  /** Compaction keeps the numbering: the marker takes the place right before the rows it
      leaves. */
  lemma TailCompacts(rows: seq<Row>, top: int, maxBytes: nat, markerSize: nat)
    requires Tail(rows, top) && rows != [] && LastOrdinal(rows) == top > 0 && Size(rows) > maxBytes >= 1
    ensures Tail(Compacted(rows, maxBytes, top, markerSize), top)
  {
    KeptIsLess(rows, maxBytes);
    hide Size, KeptFrom, Budget;
    var n := Kept(rows, maxBytes);
    var kept := rows[|rows| - n..];
    assert forall i | 0 <= i < n :: kept[i] == rows[|rows| - n + i];
    if |rows| > 1 {
      assert kept[0].ordinal == top - n + 1;
      assert rows[1].ordinal >= 1;
    }
  }

  // ---- One process ----------------------------------------------------------------------------------

  datatype Disk = Disk(rows: seq<Row>, sidecar: Sidecar)

  function AppendedRows(rows: seq<Row>, ordinal: int, size: nat, maxBytes: nat, markerSize: nat): seq<Row> {
    var more := rows + [Row(ordinal, size)];
    if Size(more) > maxBytes then Compacted(more, maxBytes, ordinal, markerSize) else more
  }

  class SharedFile {
    var rows: seq<Row>
    var sidecar: Sidecar

    constructor ()
      ensures rows == [] && sidecar == Empty
    {
      rows, sidecar := [], Empty;
    }

    /** `compact_run_events`: the backward scan, then the rewrite. */
    method Compact(maxBytes: nat, ordinal: int, markerSize: nat)
      modifies this`rows
      ensures rows == Compacted(old(rows), maxBytes, ordinal, markerSize)
    {
      hide Size;
      var lines := rows;
      var kept: nat, retained: nat := 0, 0;
      var budget := if maxBytes / 2 < 1 then 1 else maxBytes / 2;
      assert KeptFrom(lines, budget, kept, retained) == Kept(lines, maxBytes);
      hide Kept, Budget;
      var done := false;
      while !done && kept < |lines|
        invariant kept <= |lines| && rows == lines
        invariant !done ==> KeptFrom(lines, budget, kept, retained) == Kept(lines, maxBytes)
        invariant done ==> kept == Kept(lines, maxBytes)
        decreases |lines| - kept, !done
      {
        var size := lines[|lines| - 1 - kept].size;
        if kept > 0 && retained + size > budget {
          done := true;
        } else {
          kept, retained := kept + 1, retained + size;
        }
      }
      assert kept == Kept(lines, maxBytes);
      hide KeptFrom;
      var marker := Row(Max(0, ordinal - kept), markerSize);
      var candidate := [marker];
      if kept > 0 {
        var withRows := [marker] + lines[|lines| - kept..];
        if Size(withRows) <= maxBytes {
          candidate := withRows;
        }
      }
      rows := candidate;
    }
  }

  class RunTimeline {
    const file: SharedFile
    const maxBytes: nat
    var last: int

    /** The constructor reads the last row without the lock. */
    constructor (file: SharedFile, maxBytes: int)
      ensures this.file == file && this.maxBytes == (if maxBytes < 1 then 1 else maxBytes)
      ensures last == LastOrdinal(file.rows)
    {
      this.file := file;
      this.maxBytes := if maxBytes < 1 then 1 else maxBytes;
      last := LastOrdinal(file.rows);
    }

    /** `append`, from taking the lock to letting it go. */
    method Append(size: nat, markerSize: nat)
      modifies this`last, file
      ensures last == Max(old(last), Reading(old(file.sidecar), old(file.rows))) + 1
      ensures file.sidecar == Number(last)
      ensures file.rows == AppendedRows(old(file.rows), last, size, maxBytes, markerSize)
    {
      var shared := match file.sidecar
        case Empty => 0
        case Number(n) => n
        case Unreadable => LastOrdinal(file.rows);
      last := Max(last, shared) + 1;
      file.sidecar := Empty;
      file.sidecar := Number(last);
      file.rows := file.rows + [Row(last, size)];
      if Size(file.rows) > maxBytes {
        file.Compact(maxBytes, last, markerSize);
      }
    }
  }

  // ---- Any number of processes ---------------------------------------------------------------

  /** Where a process stands inside its append. */
  datatype Stage = Outside | Numbered | Truncated | Counted | Stored
  datatype Process = Process(last: int, stage: Stage)

  /** `issued` is every ordinal ever given to a row, in order. */
  datatype World = World(disk: Disk, lock: Option<nat>, processes: map<nat, Process>, issued: seq<int>)

  datatype Action =
    | Construct(id: nat)
    | TakeNumber(id: nat)
    | Truncate(id: nat)
    | Count(id: nat)
    | Store(id: nat, size: nat)
    | Leave(id: nat, markerSize: nat)
    | Crash(id: nat)            // the process is gone
    | Fail(id: nat)             // the append fails, and the process goes on

  const NOTHING := World(Disk([], Empty), None, map[], [])

  predicate At(w: World, id: nat, stage: Stage) {
    id in w.processes && w.processes[id].stage == stage
  }

  predicate Enabled(w: World, a: Action) {
    match a
    case Construct(id) => id !in w.processes
    case TakeNumber(id) => At(w, id, Outside) && w.lock == None
    case Truncate(id) => At(w, id, Numbered)
    case Count(id) => At(w, id, Truncated)
    case Store(id, _) => At(w, id, Counted)
    case Leave(id, _) => At(w, id, Stored)
    case Crash(id) => id in w.processes
    case Fail(id) => id in w.processes && w.processes[id].stage != Outside
  }

  function Moved(w: World, id: nat, p: Process): World {
    w.(processes := w.processes[id := p])
  }

  function Next(maxBytes: nat, w: World, a: Action): World
    requires Enabled(w, a)
  {
    match a
    case Construct(id) => Moved(w, id, Process(LastOrdinal(w.disk.rows), Outside))
    case TakeNumber(id) =>
      var n := Max(w.processes[id].last, Reading(w.disk.sidecar, w.disk.rows)) + 1;
      Moved(w, id, Process(n, Numbered)).(lock := Some(id))
    case Truncate(id) => Moved(w, id, w.processes[id].(stage := Truncated)).(disk := w.disk.(sidecar := Empty))
    case Count(id) =>
      Moved(w, id, w.processes[id].(stage := Counted)).(disk := w.disk.(sidecar := Number(w.processes[id].last)))
    case Store(id, size) =>
      var n := w.processes[id].last;
      Moved(w, id, w.processes[id].(stage := Stored)).(
        disk := w.disk.(rows := w.disk.rows + [Row(n, size)]), issued := w.issued + [n])
    case Leave(id, markerSize) =>
      var rows := w.disk.rows;
      Moved(w, id, w.processes[id].(stage := Outside)).(lock := None,
        disk := w.disk.(rows := if Size(rows) > maxBytes then Compacted(rows, maxBytes, w.processes[id].last, markerSize) else rows))
    case Crash(id) =>
      w.(processes := w.processes - {id}, lock := if w.lock == Some(id) then None else w.lock)
    case Fail(id) => Moved(w, id, w.processes[id].(stage := Outside)).(lock := None)
  }

  /** A process alone in the lock does what `append` does. */
  lemma StepsAreAppend(maxBytes: nat, w: World, id: nat, size: nat, markerSize: nat)
    requires Enabled(w, TakeNumber(id))
    ensures var w1 := Next(maxBytes, w, TakeNumber(id));
      && Enabled(w1, Truncate(id))
      && var w2 := Next(maxBytes, w1, Truncate(id));
      && Enabled(w2, Count(id))
      && var w3 := Next(maxBytes, w2, Count(id));
      && Enabled(w3, Store(id, size))
      && var w4 := Next(maxBytes, w3, Store(id, size));
      && Enabled(w4, Leave(id, markerSize))
      && var w5 := Next(maxBytes, w4, Leave(id, markerSize));
      && var n := Max(w.processes[id].last, Reading(w.disk.sidecar, w.disk.rows)) + 1;
      && w5.processes == w.processes[id := Process(n, Outside)] && w5.lock == None
      && w5.disk == Disk(AppendedRows(w.disk.rows, n, size, maxBytes, markerSize), Number(n))
      && w5.issued == w.issued + [n]
  {
    hide Size, Compacted, Reading;
    var n := Max(w.processes[id].last, Reading(w.disk.sidecar, w.disk.rows)) + 1;
    assert w.processes[id := Process(n, Numbered)][id := Process(n, Truncated)][id := Process(n, Counted)]
      [id := Process(n, Stored)][id := Process(n, Outside)] == w.processes[id := Process(n, Outside)];
  }

  // ---- Ordinals one by one -----------------------------------------------------------------

  /** The failures that leave every number taken with its row, or give it back. */
  predicate LeavesNoGap(w: World, a: Action) {
    match a
    case Crash(id) =>
      id in w.processes ==>
        w.processes[id].stage in {Outside, Numbered, Stored} || (w.processes[id].stage == Truncated && w.issued == [])
    case Fail(id) => At(w, id, Stored)
    case _ => true
  }

  /** How many rows have been issued: the ordinals are 1, 2, 3, ... */
  predicate OneByOne(issued: seq<int>) {
    forall i | 0 <= i < |issued| :: issued[i] == i + 1
  }

  predicate Holds(w: World, id: nat) {
    id in w.processes && w.processes[id].stage != Outside
  }

  /** What the lock holder has done so far, and what the disk looks like meanwhile. */
  predicate HolderOk(w: World) {
    match w.lock
    case None => w.disk.sidecar == Number(|w.issued|) || (w.disk.sidecar == Empty && w.issued == [])
    case Some(id) =>
      && Holds(w, id)
      && var p := w.processes[id];
      (match p.stage
       case Outside => false
       case Numbered =>
         p.last == |w.issued| + 1 && (w.disk.sidecar == Number(|w.issued|) || (w.disk.sidecar == Empty && w.issued == []))
       case Truncated => p.last == |w.issued| + 1 && w.disk.sidecar == Empty
       case Counted => p.last == |w.issued| + 1 && w.disk.sidecar == Number(p.last)
       case Stored => p.last == |w.issued| && p.last > 0 && w.disk.sidecar == Number(p.last) && LastOrdinal(w.disk.rows) == p.last && w.disk.rows != [])
  }

  predicate Inv(w: World) {
    && OneByOne(w.issued)
    && Tail(w.disk.rows, |w.issued|)
    && HolderOk(w)
    && (forall id | id in w.processes :: w.processes[id].stage != Outside ==> w.lock == Some(id))
    && (forall id | id in w.processes && w.lock != Some(id) :: w.processes[id].last <= |w.issued|)
  }

  lemma NothingInv()
    ensures Inv(NOTHING)
  {
  }

  lemma NextKeeps(maxBytes: nat, w: World, a: Action)
    requires Inv(w) && Enabled(w, a) && LeavesNoGap(w, a) && maxBytes >= 1
    ensures Inv(Next(maxBytes, w, a))
    ensures w.issued <= Next(maxBytes, w, a).issued
  {
    hide Size, Compacted;
    TailIncreases(w.disk.rows, |w.issued|);
    match a {
      case Construct(id) => hide Tail;
      case TakeNumber(id) => hide Tail;
      case Truncate(id) => hide Tail;
      case Count(id) => hide Tail;
      case Store(id, size) => TailAppends(w.disk.rows, |w.issued|, size); hide Tail;
      case Leave(id, markerSize) =>
        if Size(w.disk.rows) > maxBytes {
          TailCompacts(w.disk.rows, |w.issued|, maxBytes, markerSize);
        }
        hide Tail;
      case Crash(id) => hide Tail;
      case Fail(id) => hide Tail;
    }
  }

  predicate Leads(maxBytes: nat, w: World, a: Action, next: World) {
    Enabled(w, a) && next == Next(maxBytes, w, a)
  }

  predicate Run(maxBytes: nat, worlds: seq<World>, actions: seq<Action>) {
    && |worlds| == |actions| + 1
    && worlds[0] == NOTHING
    && forall k {:trigger actions[k]} | 0 <= k < |actions| :: Leads(maxBytes, worlds[k], actions[k], worlds[k + 1])
  }

  lemma RunInv(maxBytes: nat, worlds: seq<World>, actions: seq<Action>, j: nat)
    requires Run(maxBytes, worlds, actions) && j < |worlds| && maxBytes >= 1
    requires forall k | 0 <= k < j :: LeavesNoGap(worlds[k], actions[k])
    ensures Inv(worlds[j])
  {
    hide Inv, Enabled, Next;
    if j == 0 {
      NothingInv();
    } else {
      RunInv(maxBytes, worlds, actions, j - 1);
      assert Leads(maxBytes, worlds[j - 1], actions[j - 1], worlds[j]);
      NextKeeps(maxBytes, worlds[j - 1], actions[j - 1]);
    }
  }

  /** From an empty file, however processes are constructed and appends interleave: as long
      as no append fails after it has taken its number and before it has stored its row, the
      rows of the file are strictly increasing at every moment, whatever was compacted, and
      no ordinal is ever given out twice. */
  lemma OrdinalsIncrease(maxBytes: nat, worlds: seq<World>, actions: seq<Action>, j: nat)
    requires Run(maxBytes, worlds, actions) && j < |worlds| && maxBytes >= 1
    requires forall k | 0 <= k < j :: LeavesNoGap(worlds[k], actions[k])
    ensures StrictlyIncreasing(worlds[j].disk.rows)
    ensures Increasing(worlds[j].issued)
  {
    RunInv(maxBytes, worlds, actions, j);
    TailIncreases(worlds[j].disk.rows, |worlds[j].issued|);
    hide Run, Tail, HolderOk, StrictlyIncreasing;
  }
}
