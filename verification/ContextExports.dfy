/** The fixpoint that collects context constructors and module aliases: one pass over the
    modules, repeated until a pass changes nothing. */
module ContextExports {
  import opened Prelude
  import opened ContextModules

  /** What is known of one module: constructors by name, and module aliases in the order
      the names were first bound. */
  datatype Table = Table(kinds: map<string, Kind>, order: seq<string>, targets: map<string, string>)

  const NO_ENTRIES := Table(map[], [], map[])

  type State = map<string, Table>

  ghost predicate WellKeyed(t: Table) {
    NoDuplicates(t.order) && forall x :: x in t.order <==> x in t.targets
  }

  predicate Named(p: Program) {
    forall mod | mod in p :: mod.name != ""
  }

  function Names(p: Program): (names: set<string>)
    ensures forall n :: n in names <==> Known(p, n)
  {
    set mod | mod in p :: mod.name
  }

  function Initial(p: Program): State {
    map n | n in Names(p) :: NO_ENTRIES
  }

  function KindAt(st: State, m: string, x: string): Option<Kind> {
    if m in st && x in st[m].kinds then Some(st[m].kinds[x]) else None
  }

  /** An empty module path counts as none. */
  function PathAt(st: State, m: string, x: string): Option<string> {
    if m in st && x in st[m].targets && st[m].targets[x] != "" then Some(st[m].targets[x]) else None
  }

  function WithPath(t: Table, x: string, path: string): Table {
    t.(order := if x in t.targets then t.order else t.order + [x], targets := t.targets[x := path])
  }

  function WithKind(t: Table, x: string, kind: Kind): Table {
    t.(kinds := t.kinds[x := kind])
  }

  // ---- One module ------------------------------------------------------------------------------

  function ImportStep(p: Program, st: State, t: Table, s: Statement): Table {
    match s
    case Import(name, local) => if Importable(p, name) then WithPath(t, local, name) else t
    case ImportFrom(source, name, local) =>
      if Builtin(source, name).Some? then WithKind(t, local, Builtin(source, name).value)
      else if KindAt(st, source, name).Some? then WithKind(t, local, KindAt(st, source, name).value)
      else if PathAt(st, source, name).Some? then WithPath(t, local, PathAt(st, source, name).value)
      else if Known(p, Join(source, name)) then WithPath(t, local, Join(source, name))
      else t
    case Assign(_, _) => t
  }

  function ImportPhase(p: Program, st: State, t: Table, body: seq<Statement>): Table {
    if body == [] then t
    else ImportStep(p, st, ImportPhase(p, st, t, body[..|body| - 1]), body[|body| - 1])
  }

  /** The first alias, in order, that the dotted value goes through. */
  function FirstPrefix(order: seq<string>, dotted: string): (alias: Option<string>)
    ensures alias.Some? ==> alias.value in order && HasPrefix(dotted, alias.value)
    ensures alias.None? ==> forall a | a in order :: !HasPrefix(dotted, a)
  {
    if order == [] then None
    else if HasPrefix(dotted, order[0]) then Some(order[0])
    else FirstPrefix(order[1..], dotted)
  }

  lemma {:induction false} FirstIsFirst(order: seq<string>, dotted: string, k: nat)
    requires k < |order| && HasPrefix(dotted, order[k]) && forall j | 0 <= j < k :: !HasPrefix(dotted, order[j])
    ensures FirstPrefix(order, dotted) == Some(order[k])
    decreases k
  {
    if k > 0 {
      FirstIsFirst(order[1..], dotted, k - 1);
    }
  }

  function ThroughModule(st: State, path: string, symbol: string): Option<Kind> {
    if Builtin(path, symbol).Some? then Builtin(path, symbol) else KindAt(st, path, symbol)
  }

  function Implementation(st: State, t: Table, dotted: string): Option<Kind>
    requires WellKeyed(t)
  {
    if dotted in t.kinds then Some(t.kinds[dotted])
    else
      match FirstPrefix(t.order, dotted)
      case None => None
      case Some(alias) => ThroughModule(st, t.targets[alias], Symbol(dotted, alias))
  }

  /** An assignment only adds what is not bound yet. */
  function AliasStep(st: State, t: Table, s: Statement): (u: Table)
    requires WellKeyed(t)
    ensures WellKeyed(u)
  {
    if !s.Assign? then t
    else
      var kind := Implementation(st, t, s.dotted);
      var u := if kind.Some? && s.local !in t.kinds then WithKind(t, s.local, kind.value) else t;
      if s.dotted in u.targets && s.local !in u.targets then WithPath(u, s.local, u.targets[s.dotted]) else u
  }

  /** A dotted value that names no constructor itself is looked up through the first bound alias
      it starts with, and through no other, whatever comes of that. */
  lemma FirstAliasSupplies(st: State, t: Table, s: Statement, k: nat)
    requires WellKeyed(t) && s.Assign? && s.dotted !in t.kinds && s.local !in t.kinds
    requires k < |t.order| && HasPrefix(s.dotted, t.order[k])
    requires forall j | 0 <= j < k :: !HasPrefix(s.dotted, t.order[j])
    ensures var path, symbol := t.targets[t.order[k]], Symbol(s.dotted, t.order[k]);
      AliasStep(st, t, s).kinds ==
        if Builtin(path, symbol).Some? then t.kinds[s.local := Builtin(path, symbol).value]
        else if KindAt(st, path, symbol).Some? then t.kinds[s.local := KindAt(st, path, symbol).value]
        else t.kinds
  {
    FirstIsFirst(t.order, s.dotted, k);
    hide Builtin, KindAt, FirstPrefix;
  }

  function AliasSweep(st: State, t: Table, body: seq<Statement>): (u: Table)
    requires WellKeyed(t)
    ensures WellKeyed(u)
  {
    if body == [] then t
    else AliasStep(st, AliasSweep(st, t, body[..|body| - 1]), body[|body| - 1])
  }

  function Locals(body: seq<Statement>): set<string> {
    set s | s in body :: s.local
  }

  function Unset(t: Table, body: seq<Statement>): nat {
    |Locals(body) - t.kinds.Keys| + |Locals(body) - t.targets.Keys|
  }

  /** The inner loop needs no hypothesis to stop: each sweep that changes something binds
      a name that was unbound. */
  function AliasLoop(st: State, t: Table, body: seq<Statement>): (u: Table)
    requires WellKeyed(t)
    ensures WellKeyed(u)
    decreases Unset(t, body)
  {
    var next := AliasSweep(st, t, body);
    SweepGrows(st, t, body);
    if next == t then t
    else
      UnsetDrops(t, next, body);
      AliasLoop(st, next, body)
  }

  function ModuleTable(p: Program, st: State, mod: Module): Table
    requires mod.name in st && WellKeyed(st[mod.name])
  {
    ImportPhaseKeyed(p, st, st[mod.name], mod.body);
    AliasLoop(st, ImportPhase(p, st, st[mod.name], mod.body), mod.body)
  }

  ghost predicate Keyed(p: Program, st: State) {
    st.Keys == Names(p) && forall m | m in st :: WellKeyed(st[m])
  }

  /** The state after the first `i` modules of a pass. */
  function PassUpTo(p: Program, st: State, i: nat): (after: State)
    requires Keyed(p, st) && i <= |p|
    ensures Keyed(p, after)
  {
    if i == 0 then st
    else
      var before := PassUpTo(p, st, i - 1);
      ModuleTableKeyed(p, before, p[i - 1]);
      before[p[i - 1].name := ModuleTable(p, before, p[i - 1])]
  }

  function Pass(p: Program, st: State): (after: State)
    requires Keyed(p, st)
    ensures Keyed(p, after)
  {
    PassUpTo(p, st, |p|)
  }

  lemma WithPathKeyed(t: Table, x: string, path: string)
    requires WellKeyed(t)
    ensures WellKeyed(WithPath(t, x, path))
  {
  }

  lemma {:induction false} ImportPhaseKeyed(p: Program, st: State, t: Table, body: seq<Statement>)
    requires WellKeyed(t)
    ensures WellKeyed(ImportPhase(p, st, t, body))
  {
    if body != [] {
      ImportPhaseKeyed(p, st, t, body[..|body| - 1]);
      hide WellKeyed, ImportPhase;
      ImportStepKeyed(p, st, ImportPhase(p, st, t, body[..|body| - 1]), body[|body| - 1]);
    }
  }

  lemma ImportStepKeyed(p: Program, st: State, t: Table, s: Statement)
    requires WellKeyed(t)
    ensures WellKeyed(ImportStep(p, st, t, s))
  {
    match s {
      case Import(name, local) => WithPathKeyed(t, local, name);
      case ImportFrom(source, name, local) =>
        if PathAt(st, source, name).Some? {
          WithPathKeyed(t, local, PathAt(st, source, name).value);
        }
        WithPathKeyed(t, local, Join(source, name));
      case Assign(_, _) =>
    }
  }

  lemma ModuleTableKeyed(p: Program, st: State, mod: Module)
    requires Keyed(p, st) && mod in p
    ensures mod.name in st && WellKeyed(st[mod.name]) && WellKeyed(ModuleTable(p, st, mod))
  {
    assert Known(p, mod.name);
  }

  // ---- Growth ------------------------------------------------------------------------------------

  /** Nothing is unbound or rebound. */
  predicate Grows(t: Table, u: Table) {
    && (forall x | x in t.kinds :: x in u.kinds && u.kinds[x] == t.kinds[x])
    && (forall x | x in t.targets :: x in u.targets && u.targets[x] == t.targets[x])
    && t.order <= u.order
  }

  predicate FillsOnly(t: Table, u: Table, names: set<string>) {
    && (forall x | x in u.kinds :: x in t.kinds || x in names)
    && (forall x | x in u.targets :: x in t.targets || x in names)
  }

  lemma GrowsBack(t: Table, u: Table)
    requires Grows(t, u) && Grows(u, t)
    ensures t == u
  {
  }

  lemma AliasStepGrows(st: State, t: Table, s: Statement)
    requires WellKeyed(t)
    ensures Grows(t, AliasStep(st, t, s)) && FillsOnly(t, AliasStep(st, t, s), {s.local})
  {
    hide Implementation;
  }

  lemma {:induction false} SweepGrows(st: State, t: Table, body: seq<Statement>)
    requires WellKeyed(t)
    ensures Grows(t, AliasSweep(st, t, body)) && FillsOnly(t, AliasSweep(st, t, body), Locals(body))
  {
    if body != [] {
      var init, last := body[..|body| - 1], body[|body| - 1];
      SweepGrows(st, t, init);
      AliasStepGrows(st, AliasSweep(st, t, init), last);
      assert last in body && Locals(init) <= Locals(body);
    }
  }

  lemma FewerLeft(all: set<string>, had: set<string>, has: set<string>)
    requires had <= has <= had + all
    ensures |all - has| <= |all - had|
    ensures had != has ==> |all - has| < |all - had|
  {
    SubsetSize(all - has, all - had);
    if x :| x in has && x !in had {
      SubsetSize(all - has, all - had - {x});
    }
  }

  lemma UnsetDrops(t: Table, u: Table, body: seq<Statement>)
    requires WellKeyed(t) && WellKeyed(u) && Grows(t, u) && FillsOnly(t, u, Locals(body)) && t != u
    ensures Unset(u, body) < Unset(t, body)
  {
    FewerLeft(Locals(body), t.kinds.Keys, u.kinds.Keys);
    FewerLeft(Locals(body), t.targets.Keys, u.targets.Keys);
    SameKeysSameTable(t, u);
    hide WellKeyed, Grows, FillsOnly, Locals;
  }

  lemma SameKeysSameTable(t: Table, u: Table)
    requires WellKeyed(t) && WellKeyed(u) && Grows(t, u)
    ensures t.kinds.Keys == u.kinds.Keys && t.targets.Keys == u.targets.Keys ==> t == u
  {
    if t.kinds.Keys == u.kinds.Keys && t.targets.Keys == u.targets.Keys {
      SameKeysSameOrder(t, u);
      assert t.kinds == u.kinds && t.targets == u.targets;
    }
  }

  lemma SameKeysSameOrder(t: Table, u: Table)
    requires WellKeyed(t) && WellKeyed(u) && t.order <= u.order && t.targets.Keys == u.targets.Keys
    ensures t.order == u.order
  {
    DrawnIsNoLonger(u.order, t.order);
  }

  lemma {:induction false} LoopGrows(st: State, t: Table, body: seq<Statement>)
    requires WellKeyed(t)
    ensures Grows(t, AliasLoop(st, t, body)) && FillsOnly(t, AliasLoop(st, t, body), Locals(body))
    ensures AliasSweep(st, AliasLoop(st, t, body), body) == AliasLoop(st, t, body)
    decreases Unset(t, body)
  {
    var next := AliasSweep(st, t, body);
    SweepGrows(st, t, body);
    if next != t {
      UnsetDrops(t, next, body);
      LoopGrows(st, next, body);
    }
  }

  // ---- Soundness: every entry has a derivation -------------------------------------------

  ghost predicate SoundTable(p: Program, m: string, t: Table) {
    && WellKeyed(t)
    && (forall x | x in t.kinds :: Derivable(p, m, x, Constructor(t.kinds[x])))
    && (forall x | x in t.targets :: Derivable(p, m, x, Imported(t.targets[x])))
  }

  ghost predicate Sound(p: Program, st: State) {
    st.Keys == Names(p) && forall m | m in st :: SoundTable(p, m, st[m])
  }

  lemma SoundKind(p: Program, st: State, m: string, x: string)
    requires Sound(p, st)
    ensures KindAt(st, m, x).Some? ==> Derivable(p, m, x, Constructor(KindAt(st, m, x).value))
    ensures PathAt(st, m, x).Some? ==> Derivable(p, m, x, Imported(PathAt(st, m, x).value))
  {
  }

  lemma SoundWithPath(p: Program, m: string, t: Table, x: string, path: string)
    requires SoundTable(p, m, t) && Derivable(p, m, x, Imported(path))
    ensures SoundTable(p, m, WithPath(t, x, path))
  {
    hide Derivable;
    WithPathKeyed(t, x, path);
  }

  lemma SoundWithKind(p: Program, m: string, t: Table, x: string, kind: Kind)
    requires SoundTable(p, m, t) && Derivable(p, m, x, Constructor(kind))
    ensures SoundTable(p, m, WithKind(t, x, kind))
  {
    hide Derivable;
  }

  lemma SoundUpdate(p: Program, st: State, m: string, t: Table)
    requires Sound(p, st) && m in st && SoundTable(p, m, t)
    ensures Sound(p, st[m := t])
  {
    hide SoundTable;
  }

  lemma InitialSound(p: Program)
    ensures Sound(p, Initial(p))
  {
    hide Derivable;
  }

  lemma ImportStepSound(p: Program, st: State, m: string, t: Table, s: Statement)
    requires Sound(p, st) && SoundTable(p, m, t) && InModule(p, m, s)
    ensures SoundTable(p, m, ImportStep(p, st, t, s))
  {
    hide Derivable, Sound, SoundTable, WellKeyed;
    match s {
      case Import(name, local) =>
        if Importable(p, name) {
          DerivableBy(0, p, m, s, Imported(name));
          SoundWithPath(p, m, t, local, name);
        }
      case ImportFrom(source, name, local) => ImportFromSound(p, st, m, t, s);
      case Assign(_, _) =>
    }
  }

  lemma ImportFromSound(p: Program, st: State, m: string, t: Table, s: Statement)
    requires Sound(p, st) && SoundTable(p, m, t) && InModule(p, m, s) && s.ImportFrom?
    ensures SoundTable(p, m, ImportStep(p, st, t, s))
  {
    hide Derivable, Sound, WellKeyed, Yields, KindAt, PathAt, Join, Builtin, Known, WithPath, WithKind, SoundTable;
    var source, name := s.source, s.name;
    SoundKind(p, st, source, name);
    if Builtin(source, name).Some? {
      BuiltinDerivable(p, m, s);
      SoundWithKind(p, m, t, s.local, Builtin(source, name).value);
    } else if KindAt(st, source, name).Some? {
      DerivedName(p, m, s, source, name, Constructor(KindAt(st, source, name).value));
      SoundWithKind(p, m, t, s.local, KindAt(st, source, name).value);
    } else if PathAt(st, source, name).Some? {
      DerivedName(p, m, s, source, name, Imported(PathAt(st, source, name).value));
      SoundWithPath(p, m, t, s.local, PathAt(st, source, name).value);
    } else if Known(p, Join(source, name)) {
      SubmoduleDerivable(p, m, s);
      SoundWithPath(p, m, t, s.local, Join(source, name));
    }
  }

  lemma BuiltinDerivable(p: Program, m: string, s: Statement)
    requires InModule(p, m, s) && s.ImportFrom? && Builtin(s.source, s.name).Some?
    ensures Derivable(p, m, s.local, Constructor(Builtin(s.source, s.name).value))
  {
    DerivableBy(0, p, m, s, Constructor(Builtin(s.source, s.name).value));
  }

  lemma SubmoduleDerivable(p: Program, m: string, s: Statement)
    requires InModule(p, m, s) && s.ImportFrom? && Known(p, Join(s.source, s.name))
    ensures Derivable(p, m, s.local, Imported(Join(s.source, s.name)))
  {
    DerivableBy(0, p, m, s, Imported(Join(s.source, s.name)));
  }

  lemma TargetSound(p: Program, m: string, t: Table, s: Statement)
    requires SoundTable(p, m, t) && InModule(p, m, s) && s.Assign?
    ensures WellKeyed(t)
    ensures s.dotted in t.targets ==> Derivable(p, m, s.local, Imported(t.targets[s.dotted]))
  {
    hide Derivable;
    if s.dotted in t.targets {
      DerivedName(p, m, s, m, s.dotted, Imported(t.targets[s.dotted]));
    }
  }

  lemma WithKindKeepsTargets(t: Table, x: string)
    ensures forall kind :: WithKind(t, x, kind).targets == t.targets
  {
  }

  lemma AliasStepSound(p: Program, st: State, m: string, t: Table, s: Statement)
    requires Sound(p, st) && SoundTable(p, m, t) && InModule(p, m, s)
    ensures SoundTable(p, m, AliasStep(st, t, s))
  {
    if s.Assign? {
      TargetSound(p, m, t, s);
      hide Derivable, Sound, Implementation, SoundTable, WellKeyed, WithPath, WithKind;
      var kind := Implementation(st, t, s.dotted);
      var u := if kind.Some? && s.local !in t.kinds then WithKind(t, s.local, kind.value) else t;
      if kind.Some? {
        ImplementationSound(p, st, m, t, s);
        SoundWithKind(p, m, t, s.local, kind.value);
      }
      WithKindKeepsTargets(t, s.local);
      if s.dotted in u.targets {
        SoundWithPath(p, m, u, s.local, u.targets[s.dotted]);
      }
    }
  }

  lemma ImplementationSound(p: Program, st: State, m: string, t: Table, s: Statement)
    requires Sound(p, st) && SoundTable(p, m, t) && InModule(p, m, s) && s.Assign?
    requires Implementation(st, t, s.dotted).Some?
    ensures Derivable(p, m, s.local, Constructor(Implementation(st, t, s.dotted).value))
  {
    hide Derivable, Sound;
    var kind := Implementation(st, t, s.dotted).value;
    if s.dotted in t.kinds {
      DerivedName(p, m, s, m, s.dotted, Constructor(kind));
    } else {
      var alias := FirstPrefix(t.order, s.dotted).value;
      SoundKind(p, st, t.targets[alias], Symbol(s.dotted, alias));
      DerivedThroughAlias(p, m, s, alias, t.targets[alias], kind);
    }
  }

  lemma {:induction false} ImportPhaseSound(p: Program, st: State, m: string, t: Table, body: seq<Statement>)
    requires Sound(p, st) && SoundTable(p, m, t) && forall s | s in body :: InModule(p, m, s)
    ensures SoundTable(p, m, ImportPhase(p, st, t, body))
  {
    hide SoundTable, Sound, InModule;
    if body != [] {
      ImportPhaseSound(p, st, m, t, body[..|body| - 1]);
      ImportStepSound(p, st, m, ImportPhase(p, st, t, body[..|body| - 1]), body[|body| - 1]);
    }
  }

  lemma {:induction false} SweepSound(p: Program, st: State, m: string, t: Table, body: seq<Statement>)
    requires Sound(p, st) && SoundTable(p, m, t) && WellKeyed(t) && forall s | s in body :: InModule(p, m, s)
    ensures SoundTable(p, m, AliasSweep(st, t, body))
  {
    hide SoundTable, Sound, InModule, WellKeyed;
    if body != [] {
      SweepSound(p, st, m, t, body[..|body| - 1]);
      AliasStepSound(p, st, m, AliasSweep(st, t, body[..|body| - 1]), body[|body| - 1]);
    }
  }

  lemma {:induction false} LoopSound(p: Program, st: State, m: string, t: Table, body: seq<Statement>)
    requires Sound(p, st) && SoundTable(p, m, t) && WellKeyed(t) && forall s | s in body :: InModule(p, m, s)
    ensures SoundTable(p, m, AliasLoop(st, t, body))
    decreases Unset(t, body)
  {
    hide SoundTable, Sound, InModule, WellKeyed, Grows, FillsOnly, Unset, AliasSweep;
    var next := AliasSweep(st, t, body);
    SweepSound(p, st, m, t, body);
    if next != t {
      SweepGrows(st, t, body);
      UnsetDrops(t, next, body);
      LoopSound(p, st, m, next, body);
    }
  }

  lemma SoundIsKeyed(p: Program, st: State)
    requires Sound(p, st)
    ensures Keyed(p, st)
  {
  }

  lemma BodyInModule(p: Program, mod: Module)
    requires mod in p
    ensures forall s | s in mod.body :: InModule(p, mod.name, s)
  {
  }

  lemma ModuleSound(p: Program, st: State, mod: Module)
    requires Sound(p, st) && mod in p
    ensures mod.name in st && WellKeyed(st[mod.name])
    ensures SoundTable(p, mod.name, ModuleTable(p, st, mod))
  {
    SoundIsKeyed(p, st);
    ModuleTableKeyed(p, st, mod);
    assert SoundTable(p, mod.name, st[mod.name]);
    BodyInModule(p, mod);
    hide SoundTable, Sound, InModule, WellKeyed, Keyed;
    ImportPhaseSound(p, st, mod.name, st[mod.name], mod.body);
    ImportPhaseKeyed(p, st, st[mod.name], mod.body);
    LoopSound(p, st, mod.name, ImportPhase(p, st, st[mod.name], mod.body), mod.body);
  }

  lemma StepSound(p: Program, st: State, mod: Module)
    requires Sound(p, st) && mod in p && mod.name in st && WellKeyed(st[mod.name])
    ensures Sound(p, st[mod.name := ModuleTable(p, st, mod)])
  {
    hide *;
    ModuleSound(p, st, mod);
    SoundUpdate(p, st, mod.name, ModuleTable(p, st, mod));
  }

  lemma {:induction false} PassSound(p: Program, st: State, i: nat)
    requires Keyed(p, st) && Sound(p, st) && i <= |p|
    ensures Sound(p, PassUpTo(p, st, i))
  {
    hide Sound, ModuleTable, Keyed, WellKeyed;
    if i > 0 {
      PassSound(p, st, i - 1);
      var before := PassUpTo(p, st, i - 1);
      ModuleTableKeyed(p, before, p[i - 1]);
      StepSound(p, before, p[i - 1]);
    }
  }

  /** The state after any number of passes. */
  function AfterPasses(p: Program, n: nat): (st: State)
    ensures Keyed(p, st)
  {
    if n == 0 then Initial(p) else Pass(p, AfterPasses(p, n - 1))
  }

  lemma NextIsPass(p: Program, n: nat)
    ensures AfterPasses(p, n + 1) == Pass(p, AfterPasses(p, n))
  {
  }

  predicate StepChanges(p: Program, st: State, i: nat)
    requires Keyed(p, st) && i < |p|
  {
    PassUpTo(p, st, i + 1) != PassUpTo(p, st, i)
  }

  /** Some module of the pass got another table than it had. */
  ghost predicate PassChanges(p: Program, st: State)
    requires Keyed(p, st)
  {
    exists i :: 0 <= i < |p| && StepChanges(p, st, i)
  }

  /** The scan ends: some pass changes nothing. */
  ghost predicate Settles(p: Program) {
    exists n: nat :: !PassChanges(p, AfterPasses(p, n))
  }

  lemma {:induction false} UnchangedUpTo(p: Program, st: State, i: nat)
    requires Keyed(p, st) && i <= |p| && forall k | 0 <= k < i :: !StepChanges(p, st, k)
    ensures PassUpTo(p, st, i) == st
  {
    hide PassUpTo, Keyed;
    if i > 0 {
      UnchangedUpTo(p, st, i - 1);
      assert !StepChanges(p, st, i - 1);
    } else {
      NothingPassed(p, st);
    }
  }

  lemma QuietPass(p: Program, st: State)
    requires Keyed(p, st) && !PassChanges(p, st)
    ensures Pass(p, st) == st
  {
    hide PassUpTo, Keyed, StepChanges;
    UnchangedUpTo(p, st, |p|);
  }

  lemma NothingPassed(p: Program, st: State)
    requires Keyed(p, st)
    ensures PassUpTo(p, st, 0) == st
  {
  }

  /** Whether or not the passes ever settle: after any number of them, every entry has a
      finite derivation through imports and assignments from a constructor. */
  lemma {:induction false} EveryEntryDerived(p: Program, n: nat)
    ensures Sound(p, AfterPasses(p, n))
  {
    hide Sound, Keyed, PassUpTo;
    if n > 0 {
      EveryEntryDerived(p, n - 1);
      PassSound(p, AfterPasses(p, n - 1), |p|);
    } else {
      InitialSound(p);
    }
  }
}
