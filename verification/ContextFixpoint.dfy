/** When every name has one meaning the passes settle, and what they settle on is exactly
    what can be derived, whatever the order of the modules. */
module ContextFixpoint {
  import opened Prelude
  import opened ContextModules
  import opened ContextExports

  // ---- Nothing is rebound ------------------------------------------------------------------

  lemma GrowsOn(t: Table, u: Table, w: Table)
    requires Grows(t, u) && Grows(u, w)
    ensures Grows(t, w)
  {
  }

  lemma OneKind(p: Program, m: string, t: Table, u: Table, x: string)
    requires OneMeaning(p) && SoundTable(p, m, t) && SoundTable(p, m, u)
    ensures x in t.kinds && x in u.kinds ==> t.kinds[x] == u.kinds[x]
    ensures x in t.targets && x in u.targets ==> t.targets[x] == u.targets[x]
  {
    hide Derivable;
    if x in t.kinds && x in u.kinds {
      assert Derivable(p, m, x, Constructor(t.kinds[x])) && Derivable(p, m, x, Constructor(u.kinds[x]));
    }
    if x in t.targets && x in u.targets {
      assert Derivable(p, m, x, Imported(t.targets[x])) && Derivable(p, m, x, Imported(u.targets[x]));
    }
  }

  /** An import may overwrite a name, but only with what it already means. */
  lemma ImportStepGrows(p: Program, st: State, m: string, t: Table, s: Statement)
    requires OneMeaning(p) && Sound(p, st) && SoundTable(p, m, t) && InModule(p, m, s)
    ensures Grows(t, ImportStep(p, st, t, s))
  {
    hide OneMeaning, Sound, SoundTable, WellKeyed, KindAt, PathAt, Builtin, Known, Importable, Join;
    ImportStepSound(p, st, m, t, s);
    OneKind(p, m, t, ImportStep(p, st, t, s), s.local);
  }

  lemma {:induction false} ImportPhaseGrows(p: Program, st: State, m: string, t: Table, body: seq<Statement>)
    requires OneMeaning(p) && Sound(p, st) && SoundTable(p, m, t) && forall s | s in body :: InModule(p, m, s)
    ensures Grows(t, ImportPhase(p, st, t, body))
  {
    if body != [] {
      var init, last := body[..|body| - 1], body[|body| - 1];
      hide OneMeaning, Sound, SoundTable, InModule, Grows, ImportStep;
      ImportPhaseGrows(p, st, m, t, init);
      ImportPhaseSound(p, st, m, t, init);
      ImportStepGrows(p, st, m, ImportPhase(p, st, t, init), last);
      GrowsOn(t, ImportPhase(p, st, t, init), ImportPhase(p, st, t, body));
    } else {
      GrowsSelf(t);
    }
  }

  lemma GrowsSelf(t: Table)
    ensures Grows(t, t)
  {
  }

  ghost predicate StateGrows(st: State, u: State) {
    st.Keys == u.Keys && forall m | m in st :: Grows(st[m], u[m])
  }

  lemma StateGrowsOn(st: State, u: State, w: State)
    requires StateGrows(st, u) && StateGrows(u, w)
    ensures StateGrows(st, w)
  {
    forall m | m in st
      ensures Grows(st[m], w[m])
    {
      GrowsOn(st[m], u[m], w[m]);
    }
  }

  lemma StateGrowsBack(st: State, u: State)
    requires StateGrows(st, u) && StateGrows(u, st)
    ensures st == u
  {
    forall m | m in st
      ensures st[m] == u[m]
    {
      GrowsBack(st[m], u[m]);
    }
  }

  lemma ModuleGrows(p: Program, st: State, mod: Module)
    requires OneMeaning(p) && Sound(p, st) && mod in p && mod.name in st && WellKeyed(st[mod.name])
    ensures Grows(st[mod.name], ModuleTable(p, st, mod))
    ensures Grows(st[mod.name], ImportPhase(p, st, st[mod.name], mod.body))
    ensures WellKeyed(ImportPhase(p, st, st[mod.name], mod.body))
    ensures Grows(ImportPhase(p, st, st[mod.name], mod.body), ModuleTable(p, st, mod))
  {
    assert SoundTable(p, mod.name, st[mod.name]);
    BodyInModule(p, mod);
    var t := st[mod.name];
    hide OneMeaning, Sound, SoundTable, InModule, Grows, ImportPhase, AliasLoop, WellKeyed;
    ImportPhaseGrows(p, st, mod.name, t, mod.body);
    ImportPhaseKeyed(p, st, t, mod.body);
    LoopGrows(st, ImportPhase(p, st, t, mod.body), mod.body);
    GrowsOn(t, ImportPhase(p, st, t, mod.body), ModuleTable(p, st, mod));
  }

  lemma StateGrowsSelf(st: State)
    ensures StateGrows(st, st)
  {
  }

  lemma StateGrowsAt(st: State, m: string, t: Table)
    requires m in st && Grows(st[m], t)
    ensures StateGrows(st, st[m := t])
  {
    forall n | n in st && n != m
      ensures Grows(st[n], st[n])
    {
      GrowsSelf(st[n]);
    }
    hide Grows;
  }

  lemma {:induction false} PassGrows(p: Program, st: State, i: nat, j: nat)
    requires OneMeaning(p) && Keyed(p, st) && Sound(p, st) && i <= j <= |p|
    ensures StateGrows(PassUpTo(p, st, i), PassUpTo(p, st, j))
    decreases j
  {
    hide OneMeaning, Sound, StateGrows, ModuleTable, Keyed, WellKeyed, Grows;
    if i == j {
      StateGrowsSelf(PassUpTo(p, st, i));
    } else {
      PassGrows(p, st, i, j - 1);
      PassSound(p, st, j - 1);
      var before := PassUpTo(p, st, j - 1);
      ModuleTableKeyed(p, before, p[j - 1]);
      ModuleGrows(p, before, p[j - 1]);
      StateGrowsAt(before, p[j - 1].name, ModuleTable(p, before, p[j - 1]));
      StateGrowsOn(PassUpTo(p, st, i), before, PassUpTo(p, st, j));
    }
  }

  // ---- The measure -------------------------------------------------------------------------------

  /** Every pair of a module and a name it binds. */
  function Slots(p: Program): set<(string, string)> {
    set mod, s | mod in p && s in mod.body :: (mod.name, s.local)
  }

  function Filled(st: State): set<(string, string)> {
    set m, x | m in st && x in st[m].kinds :: (m, x)
  }

  function Aliased(st: State): set<(string, string)> {
    set m, x | m in st && x in st[m].targets :: (m, x)
  }

  function Missing(p: Program, st: State): nat {
    |Slots(p) - Filled(st)| + |Slots(p) - Aliased(st)|
  }

  lemma EntriesAreSlots(p: Program, st: State)
    requires Sound(p, st)
    ensures Filled(st) <= Slots(p) && Aliased(st) <= Slots(p)
  {
    hide Derivable;
    forall m, x | m in st && (x in st[m].kinds || x in st[m].targets)
      ensures (m, x) in Slots(p)
    {
      assert SoundTable(p, m, st[m]);
      var v := if x in st[m].kinds then Constructor(st[m].kinds[x]) else Imported(st[m].targets[x]);
      DerivedIsBound(p, m, x, v);
      var mod, s :| mod in p && s in mod.body && mod.name == m && s.local == x;
    }
  }

  lemma FewerMissing(all: set<(string, string)>, had: set<(string, string)>, has: set<(string, string)>)
    requires had <= has <= all
    ensures |all - has| <= |all - had|
    ensures had != has ==> |all - has| < |all - had|
  {
    SubsetSize(all - has, all - had);
    if x :| x in has && x !in had {
      SubsetSize(all - has, all - had - {x});
    }
  }

  /** A pass that changes anything leaves fewer pairs unset. */
  lemma MissingDrops(p: Program, st: State, u: State)
    requires Sound(p, st) && Sound(p, u) && StateGrows(st, u) && st != u
    ensures Missing(p, u) < Missing(p, st)
  {
    EntriesAreSlots(p, u);
    GrowsFilled(st, u);
    FewerMissing(Slots(p), Filled(st), Filled(u));
    FewerMissing(Slots(p), Aliased(st), Aliased(u));
    SameSlotsSameState(p, st, u);
  }

  lemma SameSlotsSameState(p: Program, st: State, u: State)
    requires Sound(p, st) && Sound(p, u) && StateGrows(st, u)
    ensures Filled(st) == Filled(u) && Aliased(st) == Aliased(u) ==> st == u
  {
    if Filled(st) == Filled(u) && Aliased(st) == Aliased(u) {
      forall m | m in st
        ensures st[m] == u[m]
      {
        assert SoundTable(p, m, st[m]) && SoundTable(p, m, u[m]);
        SameFilled(st, u, m);
        SameKeysSameTable(st[m], u[m]);
      }
    }
  }

  lemma GrowsFilled(st: State, u: State)
    requires StateGrows(st, u)
    ensures Filled(st) <= Filled(u) && Aliased(st) <= Aliased(u)
  {
  }

  lemma SameFilled(st: State, u: State, m: string)
    requires st.Keys == u.Keys && m in st && Filled(st) == Filled(u) && Aliased(st) == Aliased(u)
    ensures st[m].kinds.Keys == u[m].kinds.Keys && st[m].targets.Keys == u[m].targets.Keys
  {
    assert forall x :: (m, x) in Filled(st) <==> x in st[m].kinds;
    assert forall x :: (m, x) in Filled(u) <==> x in u[m].kinds;
    assert forall x :: (m, x) in Aliased(st) <==> x in st[m].targets;
    assert forall x :: (m, x) in Aliased(u) <==> x in u[m].targets;
  }

  // ---- A settled state is closed under every statement -------------------------------------

  ghost predicate Settled(p: Program, st: State) {
    Keyed(p, st) && Pass(p, st) == st
  }

  lemma SettledModules(p: Program, st: State, i: nat)
    requires OneMeaning(p) && Sound(p, st) && Settled(p, st) && i < |p|
    ensures p[i].name in st && WellKeyed(st[p[i].name]) && ModuleTable(p, st, p[i]) == st[p[i].name]
  {
    ModuleTableKeyed(p, st, p[i]);
    SettledSoFar(p, st, i);
    SettledSoFar(p, st, i + 1);
    hide ModuleTable, OneMeaning, Sound, Keyed;
    assert st == st[p[i].name := ModuleTable(p, st, p[i])];
  }

  lemma SettledSoFar(p: Program, st: State, i: nat)
    requires OneMeaning(p) && Sound(p, st) && Settled(p, st) && i <= |p|
    ensures PassUpTo(p, st, i) == st
  {
    hide ModuleTable, OneMeaning, Sound, Keyed, StateGrows;
    PassGrows(p, st, 0, i);
    PassGrows(p, st, i, |p|);
    StateGrowsBack(st, PassUpTo(p, st, i));
  }

  lemma {:induction false} PhaseFixed(p: Program, st: State, m: string, t: Table, body: seq<Statement>, i: nat)
    requires OneMeaning(p) && Sound(p, st) && SoundTable(p, m, t) && forall s | s in body :: InModule(p, m, s)
    requires ImportPhase(p, st, t, body) == t && i < |body|
    ensures ImportStep(p, st, t, body[i]) == t
    decreases |body|
  {
    hide OneMeaning, Sound, SoundTable, InModule, Grows, ImportStep;
    var init, last := body[..|body| - 1], body[|body| - 1];
    var before := ImportPhase(p, st, t, init);
    ImportPhaseSound(p, st, m, t, init);
    ImportPhaseGrows(p, st, m, t, init);
    ImportStepGrows(p, st, m, before, last);
    GrowsBack(t, before);
    if i < |init| {
      PhaseFixed(p, st, m, t, init, i);
    }
  }

  lemma {:induction false} SweepFixed(st: State, t: Table, body: seq<Statement>, i: nat)
    requires WellKeyed(t) && AliasSweep(st, t, body) == t && i < |body|
    ensures AliasStep(st, t, body[i]) == t
    decreases |body|
  {
    hide AliasStep, Grows, WellKeyed, FillsOnly;
    var init, last := body[..|body| - 1], body[|body| - 1];
    SweepGrows(st, t, init);
    AliasStepGrows(st, AliasSweep(st, t, init), last);
    GrowsBack(t, AliasSweep(st, t, init));
    if i < |init| {
      SweepFixed(st, t, init, i);
    }
  }

  lemma TableFixed(p: Program, st: State, mod: Module)
    requires OneMeaning(p) && Sound(p, st) && mod in p && mod.name in st && WellKeyed(st[mod.name])
    requires ModuleTable(p, st, mod) == st[mod.name]
    ensures var t := st[mod.name];
      ImportPhase(p, st, t, mod.body) == t && AliasSweep(st, t, mod.body) == t
  {
    hide OneMeaning, Sound, Grows, WellKeyed, FillsOnly, ImportPhase, AliasSweep;
    var t := st[mod.name];
    ModuleGrows(p, st, mod);
    GrowsBack(t, ImportPhase(p, st, t, mod.body));
    LoopGrows(st, t, mod.body);
  }

  /** Running any statement of a settled state again changes nothing. */
  lemma StatementsFixed(p: Program, st: State, m: string, s: Statement)
    requires OneMeaning(p) && Sound(p, st) && Settled(p, st) && InModule(p, m, s)
    ensures m in st && WellKeyed(st[m])
    ensures ImportStep(p, st, st[m], s) == st[m]
    ensures AliasStep(st, st[m], s) == st[m]
  {
    var mod :| mod in p && mod.name == m && s in mod.body;
    var i :| 0 <= i < |p| && p[i] == mod;
    var k :| 0 <= k < |mod.body| && mod.body[k] == s;
    SettledModules(p, st, i);
    assert SoundTable(p, m, st[m]);
    BodyInModule(p, mod);
    hide OneMeaning, Sound, SoundTable, Settled, InModule, ImportPhase, AliasSweep, ImportStep, AliasStep, ModuleTable, WellKeyed;
    TableFixed(p, st, mod);
    PhaseFixed(p, st, m, st[m], mod.body, k);
    SweepFixed(st, st[m], mod.body, k);
  }

  // ---- Every derivable entry is there -------------------------------------------------------

  predicate Has(st: State, m: string, x: string, v: Meaning) {
    m in st && match v
               case Constructor(kind) => x in st[m].kinds && st[m].kinds[x] == kind
               case Imported(path) => x in st[m].targets && st[m].targets[x] == path
  }

  lemma SoundHas(p: Program, st: State, m: string, x: string, v: Meaning)
    requires Sound(p, st) && Has(st, m, x, v)
    ensures Derivable(p, m, x, v)
  {
    hide Derivable;
    assert SoundTable(p, m, st[m]);
  }

  lemma ImportedAssign(depth: nat, p: Program, m: string, s: Statement, path: string)
    requires s.Assign? && Yields(depth, p, m, s, Imported(path))
    ensures Derives(depth, p, m, s.dotted, Imported(path))
  {
    hide Derives;
    var v := Imported(path);
    forall alias, road
      ensures !ThroughAlias(depth, p, m, s.dotted, alias, road, v)
    {
    }
  }

  lemma PathsHaveNames(depth: nat, p: Program, m: string, x: string, path: string)
    requires Named(p) && Derives(depth, p, m, x, Imported(path))
    ensures path != ""
    decreases depth
  {
    var v := Imported(path);
    var s :| InModule(p, m, s) && s.local == x && Yields(depth - 1, p, m, s, v);
    match s {
      case Import(_, _) =>
      case ImportFrom(source, name, _) =>
        if Derives(depth - 1, p, source, name, v) {
          PathsHaveNames(depth - 1, p, source, name, path);
        }
      case Assign(_, dotted) =>
        ImportedAssign(depth - 1, p, m, s, path);
        PathsHaveNames(depth - 1, p, m, dotted, path);
    }
  }

  ghost predicate Ready(p: Program, st: State) {
    Named(p) && OneMeaning(p) && PrefixesApart(p) && Sound(p, st) && Settled(p, st)
  }

  /** A settled statement has bound its name to whatever the name may mean. */
  lemma BoundAsDerived(p: Program, st: State, m: string, x: string, v: Meaning)
    requires OneMeaning(p) && Sound(p, st) && Derivable(p, m, x, v) && m in st
    requires if v.Constructor? then x in st[m].kinds else x in st[m].targets
    ensures Has(st, m, x, v)
  {
    hide Derivable;
    var w := if v.Constructor? then Constructor(st[m].kinds[x]) else Imported(st[m].targets[x]);
    SoundHas(p, st, m, x, w);
    assert v == w;
  }

  lemma {:induction false} Complete(depth: nat, p: Program, st: State, m: string, x: string, v: Meaning)
    requires Ready(p, st) && Derives(depth, p, m, x, v)
    ensures Has(st, m, x, v)
    decreases depth, 0
  {
    var s :| InModule(p, m, s) && s.local == x && Yields(depth - 1, p, m, s, v);
    StatementsFixed(p, st, m, s);
    assert Derivable(p, m, x, v);
    hide Ready, Derives, Derivable, Settled, Has;
    assert OneMeaning(p) && Sound(p, st) by { ReadyParts(p, st); }
    match s {
      case Import(name, _) => ImportBinds(p, st, m, s, v);
      case ImportFrom(source, name, _) =>
        if Derives(depth - 1, p, source, name, v) {
          Complete(depth - 1, p, st, source, name, v);
          if v.Imported? {
            PathsHaveNames(depth - 1, p, source, name, v.path);
          }
          ImportFromBinds(p, st, m, s, v);
        } else {
          ImportFromBinds(p, st, m, s, v);
        }
      case Assign(_, dotted) => CompleteAssign(depth - 1, p, st, m, s, v);
    }
  }

  lemma ReadyParts(p: Program, st: State)
    requires Ready(p, st)
    ensures Named(p) && OneMeaning(p) && PrefixesApart(p) && Sound(p, st) && Settled(p, st)
  {
  }

  lemma ImportBinds(p: Program, st: State, m: string, s: Statement, v: Meaning)
    requires s.Import? && v == Imported(s.name) && Importable(p, s.name)
    requires m in st && ImportStep(p, st, st[m], s) == st[m]
    ensures Has(st, m, s.local, v)
  {
    assert WithPath(st[m], s.local, s.name) == st[m];
  }

  /** Whichever import rule fires, it binds the one meaning there is. */
  lemma ImportFromBinds(p: Program, st: State, m: string, s: Statement, v: Meaning)
    requires OneMeaning(p) && Sound(p, st) && InModule(p, m, s) && s.ImportFrom? && Derivable(p, m, s.local, v)
    requires m in st && ImportStep(p, st, st[m], s) == st[m]
    requires || (Builtin(s.source, s.name).Some? && v == Constructor(Builtin(s.source, s.name).value))
             || (Known(p, Join(s.source, s.name)) && v == Imported(Join(s.source, s.name)))
             || (Has(st, s.source, s.name, v) && (v.Imported? ==> v.path != ""))
    ensures Has(st, m, s.local, v)
  {
    hide Derivable, SoundTable, Known, Join;
    var source, name, x := s.source, s.name, s.local;
    SoundKind(p, st, source, name);
    if Builtin(source, name).Some? {
      BuiltinDerivable(p, m, s);
      assert WithKind(st[m], x, Builtin(source, name).value) == st[m];
      assert v == Constructor(Builtin(source, name).value);
    } else if KindAt(st, source, name).Some? {
      DerivedName(p, m, s, source, name, Constructor(KindAt(st, source, name).value));
      assert WithKind(st[m], x, KindAt(st, source, name).value) == st[m];
      assert v == Constructor(KindAt(st, source, name).value);
    } else if PathAt(st, source, name).Some? {
      DerivedName(p, m, s, source, name, Imported(PathAt(st, source, name).value));
      assert WithPath(st[m], x, PathAt(st, source, name).value) == st[m];
      assert v == Imported(PathAt(st, source, name).value);
    } else {
      assert WithPath(st[m], x, Join(source, name)) == st[m];
    }
  }

  lemma {:induction false} CompleteAssign(depth: nat, p: Program, st: State, m: string, s: Statement, v: Meaning)
    requires Ready(p, st) && InModule(p, m, s) && s.Assign? && Yields(depth, p, m, s, v)
    requires m in st && WellKeyed(st[m]) && AliasStep(st, st[m], s) == st[m] && Derivable(p, m, s.local, v)
    ensures Has(st, m, s.local, v)
    decreases depth, 1
  {
    hide Ready, Derivable, WellKeyed, AliasStep, Derives, Has, OneMeaning, Sound;
    ReadyParts(p, st);
    if Derives(depth, p, m, s.dotted, v) {
      Complete(depth, p, st, m, s.dotted, v);
      AssignCopies(st, m, s, v);
    } else {
      var alias, path :| ThroughAlias(depth, p, m, s.dotted, alias, path, v);
      var symbol := Symbol(s.dotted, alias);
      Complete(depth, p, st, m, alias, Imported(path));
      if Derives(depth, p, path, symbol, v) {
        Complete(depth, p, st, path, symbol, v);
      }
      hide ThroughAlias;
      HasPath(st, m, alias, path);
      assert Derivable(p, m, alias, Imported(path)) by { SoundHas(p, st, m, alias, Imported(path)); }
      AliasIsFirst(p, st, m, s, alias);
      AssignThrough(st, m, s, alias, path, v);
    }
    BoundAsDerived(p, st, m, s.local, v);
  }

  lemma HasPath(st: State, m: string, alias: string, path: string)
    requires Has(st, m, alias, Imported(path))
    ensures m in st && alias in st[m].targets && st[m].targets[alias] == path
  {
  }

  lemma AssignCopies(st: State, m: string, s: Statement, v: Meaning)
    requires s.Assign? && Has(st, m, s.dotted, v) && WellKeyed(st[m]) && AliasStep(st, st[m], s) == st[m]
    ensures if v.Constructor? then s.local in st[m].kinds else s.local in st[m].targets
  {
    hide WellKeyed;
  }

  /** Prefixes do not overlap, so the first alias that matches is the one derived through. */
  lemma AliasIsFirst(p: Program, st: State, m: string, s: Statement, alias: string)
    requires PrefixesApart(p) && Sound(p, st) && InModule(p, m, s) && s.Assign? && HasPrefix(s.dotted, alias)
    requires m in st && WellKeyed(st[m]) && alias in st[m].targets
    ensures FirstPrefix(st[m].order, s.dotted) == Some(alias)
  {
    hide Derivable, Binds, InModule, HasPrefix;
    assert SoundTable(p, m, st[m]);
    var t := st[m];
    var found := FirstPrefix(t.order, s.dotted);
    assert alias in t.order;
    assert found.Some?;
    DerivedIsBound(p, m, alias, Imported(t.targets[alias]));
    DerivedIsBound(p, m, found.value, Imported(t.targets[found.value]));
  }

  lemma AssignThrough(st: State, m: string, s: Statement, alias: string, path: string, v: Meaning)
    requires s.Assign? && v.Constructor? && m in st && WellKeyed(st[m]) && AliasStep(st, st[m], s) == st[m]
    requires HasPrefix(s.dotted, alias) && alias in st[m].targets && st[m].targets[alias] == path
    requires FirstPrefix(st[m].order, s.dotted) == Some(alias)
    requires Builtin(path, Symbol(s.dotted, alias)) == Some(v.kind) || Has(st, path, Symbol(s.dotted, alias), v)
    ensures s.local in st[m].kinds
  {
    hide WellKeyed, HasPrefix, Builtin;
    assert Implementation(st, st[m], s.dotted).Some?;
    hide Implementation;
  }

  ghost predicate Exact(p: Program, st: State) {
    forall m, x, v :: Has(st, m, x, v) <==> Derivable(p, m, x, v)
  }

  /** A settled state holds exactly what can be derived. */
  lemma SettledIsExact(p: Program, st: State)
    requires Ready(p, st)
    ensures Exact(p, st)
  {
    forall m, x, v
      ensures Has(st, m, x, v) <==> Derivable(p, m, x, v)
    {
      if Derivable(p, m, x, v) {
        var depth: nat :| Derives(depth, p, m, x, v);
        Complete(depth, p, st, m, x, v);
      }
      if Has(st, m, x, v) {
        SoundHas(p, st, m, x, v);
      }
    }
  }

  /** So two settled states of the same statements agree, in whatever order the modules and
      their statements were taken. */
  lemma OrderDoesNotMatter(p: Program, st: State, q: Program, u: State, m: string, x: string, v: Meaning)
    requires Ready(p, st) && Ready(q, u) && SameStatements(p, q)
    ensures Has(st, m, x, v) <==> Has(u, m, x, v)
  {
    hide Ready, Has, Derives;
    SettledIsExact(p, st);
    SettledIsExact(q, u);
    if Derivable(p, m, x, v) {
      var depth: nat :| Derives(depth, p, m, x, v);
      SameDerivations(depth, p, q, m, x, v);
    }
    if Derivable(q, m, x, v) {
      var depth: nat :| Derives(depth, q, m, x, v);
      SameBack(p, q);
      SameDerivations(depth, q, p, m, x, v);
    }
  }

  lemma SameBack(p: Program, q: Program)
    requires SameStatements(p, q)
    ensures SameStatements(q, p)
  {
  }
}
