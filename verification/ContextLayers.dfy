/** When imports never run in a circle the scan ends too, though names may be rebound: the
    tables settle layer by layer, from the modules that import nothing known upwards. */
module ContextLayers {
  import opened Prelude
  import opened ContextModules
  import opened ContextExports
  import opened ContextFixpoint

  /** Each module ranks above the known modules its statements name, and no two modules
      share a name. */
  ghost predicate Layered(p: Program, rank: string -> nat) {
    && (forall i, j | 0 <= i < j < |p| :: p[i].name != p[j].name)
    && (forall m, s :: InModule(p, m, s) ==> NamesLower(p, rank, m, s))
  }

  predicate NamesLower(p: Program, rank: string -> nat, m: string, s: Statement) {
    match s
    case Import(name, _) => Lower(p, rank, m, name)
    case ImportFrom(source, name, _) => Lower(p, rank, m, source) && Lower(p, rank, m, Join(source, name))
    case Assign(_, _) => true
  }

  predicate Lower(p: Program, rank: string -> nat, m: string, path: string) {
    Known(p, path) ==> rank(path) < rank(m)
  }

  /** So every module path a name can stand for is lower as well. */
  lemma {:induction false} PathsLower(depth: nat, p: Program, rank: string -> nat, m: string, x: string, path: string)
    requires Layered(p, rank) && Derives(depth, p, m, x, Imported(path))
    ensures Lower(p, rank, m, path)
    decreases depth
  {
    hide Known;
    var v := Imported(path);
    var s :| InModule(p, m, s) && s.local == x && Yields(depth - 1, p, m, s, v);
    assert NamesLower(p, rank, m, s);
    match s {
      case Import(_, _) =>
      case ImportFrom(source, name, _) =>
        if Derives(depth - 1, p, source, name, v) {
          PathsLower(depth - 1, p, rank, source, name, path);
          assert Derivable(p, source, name, v);
          DerivedIsBound(p, source, name, v);
          BoundIsKnown(p, source, name);
        }
      case Assign(_, dotted) =>
        ImportedAssign(depth - 1, p, m, s, path);
        PathsLower(depth - 1, p, rank, m, dotted, path);
    }
  }

  lemma BoundIsKnown(p: Program, m: string, x: string)
    requires Binds(p, m, x)
    ensures Known(p, m)
  {
  }

  lemma TargetsLower(p: Program, rank: string -> nat, m: string, t: Table, alias: string)
    requires Layered(p, rank) && SoundTable(p, m, t) && alias in t.targets
    ensures Lower(p, rank, m, t.targets[alias])
  {
    hide Layered, Lower, Derives;
    assert Derivable(p, m, alias, Imported(t.targets[alias]));
    var depth: nat :| Derives(depth, p, m, alias, Imported(t.targets[alias]));
    PathsLower(depth, p, rank, m, alias, t.targets[alias]);
  }

  // ---- A table depends on lower tables only ---------------------------------------------------

  /** The two states agree on the known modules ranked below `r`. */
  ghost predicate AgreeBelow(p: Program, rank: string -> nat, r: nat, st: State, u: State) {
    && Sound(p, st) && Sound(p, u)
    && (forall m | m in st && rank(m) < r :: st[m] == u[m])
  }

  lemma SameEntries(p: Program, rank: string -> nat, m: string, st: State, u: State, path: string, x: string)
    requires AgreeBelow(p, rank, rank(m), st, u) && Lower(p, rank, m, path)
    ensures KindAt(st, path, x) == KindAt(u, path, x) && PathAt(st, path, x) == PathAt(u, path, x)
  {
  }

  lemma SameImport(p: Program, rank: string -> nat, m: string, st: State, u: State, t: Table, s: Statement)
    requires Layered(p, rank) && AgreeBelow(p, rank, rank(m), st, u) && InModule(p, m, s)
    ensures ImportStep(p, st, t, s) == ImportStep(p, u, t, s)
  {
    assert NamesLower(p, rank, m, s);
    hide AgreeBelow, Layered, KindAt, PathAt, InModule, Lower, Known;
    if s.ImportFrom? {
      SameEntries(p, rank, m, st, u, s.source, s.name);
    }
  }

  lemma {:induction false} SamePhase(
    p: Program, rank: string -> nat, m: string, st: State, u: State, t: Table, body: seq<Statement>)
    requires Layered(p, rank) && AgreeBelow(p, rank, rank(m), st, u)
    requires forall s | s in body :: InModule(p, m, s)
    ensures ImportPhase(p, st, t, body) == ImportPhase(p, u, t, body)
  {
    hide AgreeBelow, Layered, InModule, ImportStep;
    if body != [] {
      var init, last := body[..|body| - 1], body[|body| - 1];
      SamePhase(p, rank, m, st, u, t, init);
      SameImport(p, rank, m, st, u, ImportPhase(p, st, t, init), last);
    }
  }

  lemma SameImplementation(p: Program, rank: string -> nat, m: string, st: State, u: State, t: Table, dotted: string)
    requires Layered(p, rank) && AgreeBelow(p, rank, rank(m), st, u) && SoundTable(p, m, t)
    ensures WellKeyed(t) && Implementation(st, t, dotted) == Implementation(u, t, dotted)
  {
    assert WellKeyed(t);
    hide AgreeBelow, Layered, KindAt, Builtin;
    var first := FirstPrefix(t.order, dotted);
    if first.Some? {
      TargetsLower(p, rank, m, t, first.value);
      SameEntries(p, rank, m, st, u, t.targets[first.value], Symbol(dotted, first.value));
    }
  }

  lemma {:induction false} SameSweep(
    p: Program, rank: string -> nat, m: string, st: State, u: State, t: Table, body: seq<Statement>)
    requires Layered(p, rank) && AgreeBelow(p, rank, rank(m), st, u) && SoundTable(p, m, t) && WellKeyed(t)
    requires forall s | s in body :: InModule(p, m, s)
    ensures AliasSweep(st, t, body) == AliasSweep(u, t, body)
  {
    if body != [] {
      var init, last := body[..|body| - 1], body[|body| - 1];
      SameSweep(p, rank, m, st, u, t, init);
      assert Sound(p, st);
      hide AgreeBelow, Layered, InModule, SoundTable, WellKeyed, Implementation, Sound;
      SweepSound(p, st, m, t, init);
      if last.Assign? {
        SameImplementation(p, rank, m, st, u, AliasSweep(st, t, init), last.dotted);
      }
    }
  }

  lemma {:induction false} SameLoop(
    p: Program, rank: string -> nat, m: string, st: State, u: State, t: Table, body: seq<Statement>)
    requires Layered(p, rank) && AgreeBelow(p, rank, rank(m), st, u) && SoundTable(p, m, t) && WellKeyed(t)
    requires forall s | s in body :: InModule(p, m, s)
    ensures AliasLoop(st, t, body) == AliasLoop(u, t, body)
    decreases Unset(t, body)
  {
    var next := AliasSweep(st, t, body);
    assert Sound(p, st);
    hide AgreeBelow, Layered, InModule, SoundTable, WellKeyed, Grows, FillsOnly, Unset, AliasSweep, Sound;
    SameSweep(p, rank, m, st, u, t, body);
    if next != t {
      SweepGrows(st, t, body);
      UnsetDrops(t, next, body);
      SweepSound(p, st, m, t, body);
      SameLoop(p, rank, m, st, u, next, body);
    }
  }

  /** A module's new table is a function of its own table and of the lower ones. */
  lemma SameTable(p: Program, rank: string -> nat, st: State, u: State, mod: Module)
    requires Layered(p, rank) && AgreeBelow(p, rank, rank(mod.name), st, u)
    requires mod in p && mod.name in st && mod.name in u && st[mod.name] == u[mod.name]
    ensures WellKeyed(st[mod.name]) && ModuleTable(p, st, mod) == ModuleTable(p, u, mod)
  {
    var m, t, body := mod.name, st[mod.name], mod.body;
    assert Sound(p, st) && SoundTable(p, m, t) && WellKeyed(t);
    BodyInModule(p, mod);
    hide AgreeBelow, Layered, InModule, SoundTable, WellKeyed, Sound, ImportPhase, AliasLoop;
    SamePhase(p, rank, m, st, u, t, body);
    ImportPhaseSound(p, st, m, t, body);
    ImportPhaseKeyed(p, st, t, body);
    SameLoop(p, rank, m, st, u, ImportPhase(p, st, t, body), body);
  }

  // ---- Resolving a module twice is resolving it once -----------------------------------------

  /** `u` is `t` with the entries of `laid` laid over it. */
  predicate Overlaid(t: Table, laid: Table, u: Table) {
    && u.kinds == t.kinds + laid.kinds
    && u.targets == t.targets + laid.targets
    && (laid.targets.Keys <= t.targets.Keys ==> u.order == t.order)
  }

  lemma PathOverlays(t: Table, laid: Table, u: Table, x: string, path: string)
    requires Overlaid(t, laid, u)
    ensures Overlaid(t, WithPath(laid, x, path), WithPath(u, x, path))
  {
    assert u.targets[x := path] == t.targets + laid.targets[x := path];
  }

  lemma KindOverlays(t: Table, laid: Table, u: Table, x: string, kind: Kind)
    requires Overlaid(t, laid, u)
    ensures Overlaid(t, WithKind(laid, x, kind), WithKind(u, x, kind))
  {
    assert u.kinds[x := kind] == t.kinds + laid.kinds[x := kind];
  }

  lemma StepOverlays(p: Program, st: State, t: Table, laid: Table, u: Table, s: Statement)
    requires Overlaid(t, laid, u)
    ensures Overlaid(t, ImportStep(p, st, laid, s), ImportStep(p, st, u, s))
  {
    hide Overlaid, WithPath, WithKind, Builtin, KindAt, PathAt, Known, Join, Importable;
    match s {
      case Import(name, local) => PathOverlays(t, laid, u, local, name);
      case ImportFrom(source, name, local) =>
        if Builtin(source, name).Some? {
          KindOverlays(t, laid, u, local, Builtin(source, name).value);
        } else if KindAt(st, source, name).Some? {
          KindOverlays(t, laid, u, local, KindAt(st, source, name).value);
        } else if PathAt(st, source, name).Some? {
          PathOverlays(t, laid, u, local, PathAt(st, source, name).value);
        } else {
          PathOverlays(t, laid, u, local, Join(source, name));
        }
      case Assign(_, _) =>
    }
  }

  /** The imports of a body lay fixed entries over whatever table they start from. */
  lemma {:induction false} PhaseOverlays(p: Program, st: State, t: Table, body: seq<Statement>)
    ensures Overlaid(t, ImportPhase(p, st, NO_ENTRIES, body), ImportPhase(p, st, t, body))
  {
    if body != [] {
      var init, last := body[..|body| - 1], body[|body| - 1];
      PhaseOverlays(p, st, t, init);
      hide Overlaid, ImportStep;
      StepOverlays(p, st, t, ImportPhase(p, st, NO_ENTRIES, init), ImportPhase(p, st, t, init), last);
    }
  }

  lemma PhaseOfGrown(p: Program, st: State, t: Table, u: Table, body: seq<Statement>)
    requires Grows(ImportPhase(p, st, t, body), u)
    ensures ImportPhase(p, st, u, body) == u
  {
    PhaseOverlays(p, st, t, body);
    PhaseOverlays(p, st, u, body);
    hide ImportPhase;
    var laid := ImportPhase(p, st, NO_ENTRIES, body);
    assert u.kinds + laid.kinds == u.kinds;
    assert u.targets + laid.targets == u.targets;
  }

  /** A table resolved once is a fixed point of the same resolution. */
  lemma ResolvedTwice(p: Program, st: State, mod: Module)
    requires mod.name in st && WellKeyed(st[mod.name])
    ensures WellKeyed(ModuleTable(p, st, mod))
    ensures var u := ModuleTable(p, st, mod);
      ImportPhase(p, st, u, mod.body) == u && AliasLoop(st, u, mod.body) == u
  {
    var t, body := st[mod.name], mod.body;
    ImportPhaseKeyed(p, st, t, body);
    hide ImportPhase, AliasSweep, WellKeyed, Grows, FillsOnly;
    LoopGrows(st, ImportPhase(p, st, t, body), body);
    PhaseOfGrown(p, st, t, ModuleTable(p, st, mod), body);
  }

  // ---- Layer by layer ----------------------------------------------------------------------------

  /** Resolving again any module ranked below `r` leaves its table alone. */
  ghost predicate StableBelow(p: Program, rank: string -> nat, r: nat, st: State)
    requires Keyed(p, st)
  {
    forall i | 0 <= i < |p| && rank(p[i].name) < r :: Resolved(p, st, i)
  }

  predicate Resolved(p: Program, st: State, i: nat)
    requires Keyed(p, st) && i < |p|
  {
    ModuleTableKeyed(p, st, p[i]);
    ModuleTable(p, st, p[i]) == st[p[i].name]
  }

  lemma AgreeSelf(p: Program, rank: string -> nat, r: nat, st: State)
    requires Sound(p, st)
    ensures AgreeBelow(p, rank, r, st, st)
  {
  }

  lemma AgreeStep(p: Program, rank: string -> nat, r: nat, st: State, u: State, m: string, t: Table)
    requires AgreeBelow(p, rank, r, st, u) && m in u && SoundTable(p, m, t) && (rank(m) < r ==> t == u[m])
    ensures AgreeBelow(p, rank, r, st, u[m := t])
  {
    SoundUpdate(p, u, m, t);
    hide SoundTable;
  }

  lemma AgreeLess(p: Program, rank: string -> nat, r: nat, less: nat, st: State, u: State)
    requires AgreeBelow(p, rank, r, st, u) && less <= r
    ensures AgreeBelow(p, rank, less, st, u)
  {
  }

  lemma PassNext(p: Program, st: State, i: nat)
    requires Keyed(p, st) && i < |p|
    ensures var before := PassUpTo(p, st, i);
      && Keyed(p, before)
      && p[i].name in before && WellKeyed(before[p[i].name])
      && PassUpTo(p, st, i + 1) == before[p[i].name := ModuleTable(p, before, p[i])]
  {
    hide Keyed, ModuleTable, WellKeyed;
    ModuleTableKeyed(p, PassUpTo(p, st, i), p[i]);
  }

  /** A module of a settled layer is resolved to the table it has. */
  lemma LayerKept(p: Program, rank: string -> nat, r: nat, st: State, u: State, i: nat)
    requires Layered(p, rank) && Keyed(p, st) && StableBelow(p, rank, r, st) && AgreeBelow(p, rank, r, st, u)
    requires i < |p| && p[i].name in u && WellKeyed(u[p[i].name])
    ensures rank(p[i].name) < r ==> ModuleTable(p, u, p[i]) == u[p[i].name]
  {
    if rank(p[i].name) < r {
      assert Resolved(p, st, i);
      ModuleTableKeyed(p, st, p[i]);
      AgreeLess(p, rank, r, rank(p[i].name), st, u);
      assert u[p[i].name] == st[p[i].name];
      hide Layered, StableBelow, AgreeBelow, ModuleTable, Keyed, WellKeyed;
      SameTable(p, rank, st, u, p[i]);
    }
  }

  /** During a pass the settled layers stay as they are. */
  lemma {:induction false} PassKeepsLayers(p: Program, rank: string -> nat, r: nat, st: State, i: nat)
    requires Layered(p, rank) && Keyed(p, st) && Sound(p, st) && StableBelow(p, rank, r, st) && i <= |p|
    ensures AgreeBelow(p, rank, r, st, PassUpTo(p, st, i))
  {
    hide Layered, Keyed, Sound, StableBelow, AgreeBelow, ModuleTable, WellKeyed, PassUpTo, SoundTable;
    if i == 0 {
      NothingPassed(p, st);
      AgreeSelf(p, rank, r, st);
    } else {
      PassKeepsLayers(p, rank, r, st, i - 1);
      PassNext(p, st, i - 1);
      PassSound(p, st, i - 1);
      var before, mod := PassUpTo(p, st, i - 1), p[i - 1];
      ModuleSound(p, before, mod);
      LayerKept(p, rank, r, st, before, i - 1);
      AgreeStep(p, rank, r, st, before, mod.name, ModuleTable(p, before, mod));
    }
  }

  /** Once the lower tables are final, one resolution is enough. */
  lemma ResolvedOnce(p: Program, rank: string -> nat, st: State, u: State, mod: Module)
    requires Layered(p, rank) && AgreeBelow(p, rank, rank(mod.name), st, u)
    requires mod in p && mod.name in st && mod.name in u && WellKeyed(st[mod.name])
    requires u[mod.name] == ModuleTable(p, st, mod)
    ensures WellKeyed(u[mod.name]) && ModuleTable(p, u, mod) == u[mod.name]
  {
    var m, t, body := mod.name, u[mod.name], mod.body;
    assert Sound(p, st) && Sound(p, u);
    ModuleSound(p, st, mod);
    BodyInModule(p, mod);
    ResolvedTwice(p, st, mod);
    hide AgreeBelow, Layered, InModule, SoundTable, WellKeyed, Sound, ImportPhase, AliasLoop;
    SamePhase(p, rank, m, st, u, t, body);
    SameLoop(p, rank, m, st, u, t, body);
  }

  lemma SameNames(p: Program, st: State, i: nat)
    requires Keyed(p, st) && i <= |p|
    ensures PassUpTo(p, st, i).Keys == st.Keys
  {
  }

  lemma OneWritten(p: Program, st: State, i: nat, m: string)
    requires Keyed(p, st) && i < |p| && m in st && p[i].name != m
    ensures m in PassUpTo(p, st, i) && m in PassUpTo(p, st, i + 1)
    ensures PassUpTo(p, st, i + 1)[m] == PassUpTo(p, st, i)[m]
  {
    SameNames(p, st, i);
    PassNext(p, st, i);
  }

  /** A pass leaves the table of a module alone between the places that have its name. */
  lemma {:induction false} Untouched(p: Program, st: State, i: nat, j: nat, m: string)
    requires Keyed(p, st) && i <= j <= |p| && m in st && forall k | i <= k < j :: p[k].name != m
    ensures m in PassUpTo(p, st, i) && m in PassUpTo(p, st, j)
    ensures PassUpTo(p, st, j)[m] == PassUpTo(p, st, i)[m]
    decreases j
  {
    hide Keyed, PassUpTo;
    if i == j {
      SameNames(p, st, i);
    } else {
      Untouched(p, st, i, j - 1, m);
      OneWritten(p, st, j - 1, m);
    }
  }

  lemma AgreeBoth(p: Program, rank: string -> nat, r: nat, less: nat, st: State, u: State, w: State)
    requires AgreeBelow(p, rank, r, st, u) && AgreeBelow(p, rank, r, st, w) && less <= r
    ensures AgreeBelow(p, rank, less, u, w)
  {
  }

  /** Each pass settles one more layer. */
  lemma PassSettlesLayer(p: Program, rank: string -> nat, r: nat, st: State)
    requires Layered(p, rank) && Keyed(p, st) && Sound(p, st) && StableBelow(p, rank, r, st)
    ensures StableBelow(p, rank, r + 1, Pass(p, st))
  {
    var after := Pass(p, st);
    forall i | 0 <= i < |p| && rank(p[i].name) < r + 1
      ensures Resolved(p, after, i)
    {
      ResolvedAfter(p, rank, r, st, i);
    }
  }

  lemma ResolvedAfter(p: Program, rank: string -> nat, r: nat, st: State, i: nat)
    requires Layered(p, rank) && Keyed(p, st) && Sound(p, st) && StableBelow(p, rank, r, st)
    requires i < |p| && rank(p[i].name) <= r
    ensures Resolved(p, Pass(p, st), i)
  {
    assert forall k, l | 0 <= k < l < |p| :: p[k].name != p[l].name;
    hide Layered, Keyed, Sound, StableBelow, AgreeBelow, ModuleTable, WellKeyed, PassUpTo;
    var before, after := PassUpTo(p, st, i), Pass(p, st);
    PassKeepsLayers(p, rank, r, st, i);
    PassKeepsLayers(p, rank, r, st, |p|);
    AgreeBoth(p, rank, r, rank(p[i].name), st, before, after);
    ModuleTableKeyed(p, st, p[i]);
    PassNext(p, st, i);
    Untouched(p, st, i + 1, |p|, p[i].name);
    ResolvedOnce(p, rank, before, after, p[i]);
  }

  lemma NothingBelow(p: Program, rank: string -> nat, st: State)
    requires Keyed(p, st)
    ensures StableBelow(p, rank, 0, st)
  {
  }

  lemma {:induction false} LayersSettle(p: Program, rank: string -> nat, n: nat)
    requires Layered(p, rank)
    ensures StableBelow(p, rank, n, AfterPasses(p, n))
  {
    hide Layered, Keyed, Sound, StableBelow, Pass, AfterPasses;
    if n == 0 {
      NothingBelow(p, rank, AfterPasses(p, 0));
    } else {
      LayersSettle(p, rank, n - 1);
      EveryEntryDerived(p, n - 1);
      NextIsPass(p, n - 1);
      PassSettlesLayer(p, rank, n - 1, AfterPasses(p, n - 1));
    }
  }

  lemma ResolvedStep(p: Program, st: State, i: nat)
    requires Keyed(p, st) && i < |p| && Resolved(p, st, i) && PassUpTo(p, st, i) == st
    ensures PassUpTo(p, st, i + 1) == st
  {
    PassNext(p, st, i);
    hide Keyed, ModuleTable, PassUpTo, WellKeyed;
    assert st[p[i].name := st[p[i].name]] == st;
  }

  lemma {:induction false} StableIsQuiet(p: Program, st: State, i: nat)
    requires Keyed(p, st) && i <= |p| && forall k | 0 <= k < |p| :: Resolved(p, st, k)
    ensures PassUpTo(p, st, i) == st
  {
    hide Keyed, PassUpTo, Resolved;
    if i == 0 {
      NothingPassed(p, st);
    } else {
      StableIsQuiet(p, st, i - 1);
      ResolvedStep(p, st, i - 1);
    }
  }

  /** With imports in layers the scan ends, whatever its names mean: after as many passes as
      there are ranks a pass changes nothing. */
  lemma LayeredSettles(p: Program, rank: string -> nat, n: nat)
    requires Layered(p, rank) && forall mod | mod in p :: rank(mod.name) < n
    ensures !PassChanges(p, AfterPasses(p, n)) && Settles(p)
  {
    var st := AfterPasses(p, n);
    LayersSettle(p, rank, n);
    hide Keyed, PassUpTo, Layered;
    forall i | 0 <= i < |p|
      ensures !StepChanges(p, st, i)
    {
      assert forall k | 0 <= k < |p| :: p[k] in p && Resolved(p, st, k);
      StableIsQuiet(p, st, i);
      StableIsQuiet(p, st, i + 1);
    }
  }

  /** With distinct names a pass shows in its result whether it changed anything. */
  lemma DistinctChangesShow(p: Program, st: State)
    requires Keyed(p, st) && forall k, l | 0 <= k < l < |p| :: p[k].name != p[l].name
    ensures PassChanges(p, st) <==> Pass(p, st) != st
  {
    hide Keyed, ModuleTable, PassUpTo, WellKeyed;
    if Pass(p, st) == st {
      forall i | 0 <= i < |p|
        ensures !StepChanges(p, st, i)
      {
        ModuleTableKeyed(p, st, p[i]);
        NothingPassed(p, st);
        Untouched(p, st, 0, i, p[i].name);
        PassNext(p, st, i);
        Untouched(p, st, i + 1, |p|, p[i].name);
        assert PassUpTo(p, st, i)[p[i].name] == st[p[i].name] == PassUpTo(p, st, i + 1)[p[i].name];
      }
    } else if !PassChanges(p, st) {
      QuietPass(p, st);
    }
  }
}
