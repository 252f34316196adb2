/** The scan as it runs: the nested loops, an import cycle on which they never settle, and
    the dotted constructor paths read off the result. */
module ContextScan {
  import opened Prelude
  import opened ContextModules
  import opened ContextExports
  import opened ContextFixpoint

  // ---- The loops ---------------------------------------------------------------------------------

  lemma ImportPhaseNext(p: Program, st: State, t: Table, body: seq<Statement>, j: nat)
    requires j < |body|
    ensures ImportPhase(p, st, t, body[..j + 1]) == ImportStep(p, st, ImportPhase(p, st, t, body[..j]), body[j])
  {
    assert body[..j + 1][..j] == body[..j];
  }

  lemma SweepNext(st: State, t: Table, body: seq<Statement>, j: nat)
    requires j < |body| && WellKeyed(t)
    ensures AliasSweep(st, t, body[..j + 1]) == AliasStep(st, AliasSweep(st, t, body[..j]), body[j])
  {
    assert body[..j + 1][..j] == body[..j];
  }

  /** One sweep of the inner loop over a module's assignments. */
  method Sweep(st: State, table: Table, body: seq<Statement>) returns (swept: Table, changed: bool)
    requires WellKeyed(table)
    ensures swept == AliasSweep(st, table, body)
    ensures changed <==> swept != table
  {
    swept, changed := table, false;
    for j := 0 to |body|
      invariant swept == AliasSweep(st, table, body[..j])
      invariant Grows(table, swept)
      invariant changed <==> swept != table
    {
      SweepNext(st, table, body, j);
      AliasStepGrows(st, swept, body[j]);
      ghost var before := swept;
      if body[j].Assign? {
        hide FirstPrefix;
        var local, dotted := body[j].local, body[j].dotted;
        var kind := Implementation(st, swept, dotted);
        if kind.Some? && local !in swept.kinds {
          swept := WithKind(swept, local, kind.value);
          changed := true;
        }
        if dotted in swept.targets && local !in swept.targets {
          swept := WithPath(swept, local, swept.targets[dotted]);
          changed := true;
        }
      }
      GrowsOn(table, before, swept);
      if swept != before && swept == table {
        GrowsBack(before, swept);
      }
    }
    assert body[..|body|] == body;
  }

  /** The table of one module: its imports once, then its assignments until they settle. */
  method ResolveModule(p: Program, st: State, mod: Module) returns (table: Table)
    requires mod.name in st && WellKeyed(st[mod.name])
    ensures table == ModuleTable(p, st, mod)
  {
    table := st[mod.name];
    for j := 0 to |mod.body|
      invariant table == ImportPhase(p, st, st[mod.name], mod.body[..j])
    {
      ImportPhaseNext(p, st, st[mod.name], mod.body, j);
      table := ImportStep(p, st, table, mod.body[j]);
    }
    assert mod.body[..|mod.body|] == mod.body;
    ImportPhaseKeyed(p, st, st[mod.name], mod.body);
    ghost var start := table;
    var changed := true;
    while changed
      invariant WellKeyed(table)
      invariant AliasLoop(st, table, mod.body) == AliasLoop(st, start, mod.body)
      invariant !changed ==> table == AliasLoop(st, start, mod.body)
      decreases Unset(table, mod.body), changed
    {
      SweepGrows(st, table, mod.body);
      hide Grows, FillsOnly, WellKeyed, Unset, Locals;
      var swept, again := Sweep(st, table, mod.body);
      if again {
        UnsetDrops(table, swept, mod.body);
      }
      table, changed := swept, again;
    }
  }

  /** One pass over the modules, each seeing what the ones before it have just settled. */
  method RunPass(p: Program, before: State) returns (exports: State, changed: bool)
    requires Keyed(p, before)
    ensures exports == Pass(p, before)
    ensures changed <==> PassChanges(p, before)
    ensures !changed ==> exports == before
  {
    hide Keyed, ModuleTable, WellKeyed;
    exports, changed := before, false;
    for i := 0 to |p|
      invariant exports == PassUpTo(p, before, i)
      invariant changed <==> exists k :: 0 <= k < i && StepChanges(p, before, k)
    {
      ModuleTableKeyed(p, exports, p[i]);
      var table := ResolveModule(p, exports, p[i]);
      ghost var sofar := exports;
      if table != exports[p[i].name] {
        exports := exports[p[i].name := table];
        changed := true;
        assert exports[p[i].name] != sofar[p[i].name];
        assert StepChanges(p, before, i);
      } else {
        assert exports == exports[p[i].name := table];
        assert !StepChanges(p, before, i);
      }
    }
    if !changed {
      UnchangedUpTo(p, before, |p|);
    }
  }

  /** With one meaning for each name, a pass shows in its result whether it changed anything. */
  lemma ChangesShow(p: Program, st: State)
    requires OneMeaning(p) && Keyed(p, st) && Sound(p, st)
    ensures PassChanges(p, st) <==> Pass(p, st) != st
  {
    hide Keyed, Sound, OneMeaning, PassUpTo;
    if i :| 0 <= i < |p| && StepChanges(p, st, i) {
      if Pass(p, st) == st {
        SettledSoFar(p, st, i);
        SettledSoFar(p, st, i + 1);
      }
    } else {
      UnchangedUpTo(p, st, |p|);
    }
  }

  /** A pass keeps the state sound, and counts down unless it changes nothing. */
  lemma PassProgress(p: Program, st: State)
    requires OneMeaning(p) && Keyed(p, st) && Sound(p, st)
    ensures Keyed(p, Pass(p, st)) && Sound(p, Pass(p, st))
    ensures Pass(p, st) != st ==> Missing(p, Pass(p, st)) < Missing(p, st)
  {
    hide Keyed, Sound, OneMeaning, ModuleTable, StateGrows, Missing;
    PassSound(p, st, |p|);
    PassGrows(p, st, 0, |p|);
    if Pass(p, st) != st {
      MissingDrops(p, st, Pass(p, st));
    }
  }

  lemma {:induction false} OneMeaningSettlesFrom(p: Program, n: nat)
    requires OneMeaning(p)
    ensures Settles(p)
    decreases Missing(p, AfterPasses(p, n))
  {
    hide Keyed, Sound, OneMeaning, Missing, Pass, PassChanges;
    var st := AfterPasses(p, n);
    EveryEntryDerived(p, n);
    ChangesShow(p, st);
    if PassChanges(p, st) {
      PassProgress(p, st);
      assert AfterPasses(p, n + 1) == Pass(p, st);
      OneMeaningSettlesFrom(p, n + 1);
    }
  }

  /** One meaning for each name is enough for the scan to end. */
  lemma OneMeaningSettles(p: Program)
    requires OneMeaning(p)
    ensures Settles(p)
  {
    OneMeaningSettlesFrom(p, 0);
  }

  /** `_context_constructor_exports`, on the programs where it ends: the result is a state
      no pass changes and every entry of it is derived. When every name has one meaning and
      no prefixes overlap, it holds exactly what can be derived. */
  method ContextConstructorExports(p: Program) returns (exports: State)
    requires Settles(p)
    ensures Sound(p, exports) && Settled(p, exports) && !PassChanges(p, exports)
    ensures exists n: nat :: exports == AfterPasses(p, n)
    ensures Named(p) && OneMeaning(p) && PrefixesApart(p) ==> Ready(p, exports) && Exact(p, exports)
  {
    hide Keyed, Sound, OneMeaning, PrefixesApart, Named, Exact, Initial, Pass, PassChanges;
    ghost var last: nat :| !PassChanges(p, AfterPasses(p, last));
    ghost var n := 0;
    exports := Initial(p);
    var changed := true;
    while changed
      invariant exports == AfterPasses(p, n)
      invariant changed ==> n <= last
      invariant !changed ==> !PassChanges(p, exports) && Pass(p, exports) == exports
      decreases last + 1 - n, changed
    {
      ghost var before := exports;
      exports, changed := RunPass(p, exports);
      n := n + 1;
      assert exports == AfterPasses(p, n);
    }
    EveryEntryDerived(p, n);
    if Named(p) && OneMeaning(p) && PrefixesApart(p) {
      SettledIsExact(p, exports);
    }
  }

  // ---- A cycle that never settles -----------------------------------------------------------

  /** Three modules that each import one name from the next, two of them after binding it
      to a constructor of their own. */
  const CYCLE: Program := [
    Module("a", [ImportFrom("contextvars", "ContextVar", "x"), ImportFrom("b", "x", "x")]),
    Module("b", [ImportFrom("core.ui.context_local", "ContextLocal", "x"), ImportFrom("c", "x", "x")]),
    Module("c", [ImportFrom("a", "x", "x")])]

  function Only(kind: Kind): Table { Table(map["x" := kind], [], map[]) }

  function Three(a: Table, b: Table, c: Table): State { map["a" := a, "b" := b, "c" := c] }

  lemma {:induction false} NothingAssigned(st: State, t: Table, body: seq<Statement>)
    requires WellKeyed(t) && forall s | s in body :: !s.Assign?
    ensures AliasSweep(st, t, body) == t && AliasLoop(st, t, body) == t
  {
    if body != [] {
      NothingAssigned(st, t, body[..|body| - 1]);
      assert body[|body| - 1] in body;
    }
  }

  lemma CycleNames()
    ensures Names(CYCLE) == {"a", "b", "c"}
    ensures forall n :: Known(CYCLE, n) <==> n in {"a", "b", "c"}
  {
    assert CYCLE[0].name == "a" && CYCLE[1].name == "b" && CYCLE[2].name == "c";
    assert forall mod :: mod in CYCLE <==> mod == CYCLE[0] || mod == CYCLE[1] || mod == CYCLE[2];
  }

  /** A module that binds the name itself and then imports it ends with the import if the
      source has it, and otherwise with its own. */
  lemma OwnThenImported(st: State, i: nat, source: string)
    requires i < 2 && |CYCLE[i].body| == 2 && CYCLE[i].body[1] == ImportFrom(source, "x", "x") && source in {"b", "c"}
    requires CYCLE[i].name in st && st[CYCLE[i].name].order == [] && st[CYCLE[i].name].targets == map[]
    requires st[CYCLE[i].name].kinds.Keys <= {"x"}
    requires PathAt(st, source, "x") == None
    ensures WellKeyed(st[CYCLE[i].name])
    ensures ModuleTable(CYCLE, st, CYCLE[i]) ==
      Only(if KindAt(st, source, "x").Some? then KindAt(st, source, "x").value else if i == 0 then ContextVar else ContextLocal)
  {
    var t, body := st[CYCLE[i].name], CYCLE[i].body;
    CycleNames();
    assert |Join(source, "x")| == 3;
    var own := if i == 0 then ContextVar else ContextLocal;
    assert Builtin(body[0].source, body[0].name) == Some(own);
    assert Builtin(source, "x") == None;
    hide Builtin, Join, Known;
    assert ImportStep(CYCLE, st, t, body[0]) == WithKind(t, "x", own);
    assert WithKind(t, "x", own) == Only(own);
    var end := Only(if KindAt(st, source, "x").Some? then KindAt(st, source, "x").value else own);
    assert ImportStep(CYCLE, st, Only(own), body[1]) == end;
    TwoImports(CYCLE, st, t, body);
    hide ImportStep;
    NothingAssigned(st, end, body);
  }

  lemma TwoImports(p: Program, st: State, t: Table, body: seq<Statement>)
    requires |body| == 2
    ensures ImportPhase(p, st, t, body) == ImportStep(p, st, ImportStep(p, st, t, body[0]), body[1])
  {
    hide ImportStep;
    assert body[..1] == [body[0]] && body[..0] == [] && body[..2] == body;
    ImportPhaseNext(p, st, t, body, 0);
    ImportPhaseNext(p, st, t, body, 1);
  }

  lemma OnlyImported(st: State)
    requires "c" in st && st["c"].order == [] && st["c"].targets == map[] && st["c"].kinds.Keys <= {"x"}
    requires KindAt(st, "a", "x").Some?
    ensures WellKeyed(st["c"])
    ensures ModuleTable(CYCLE, st, CYCLE[2]) == Only(KindAt(st, "a", "x").value)
  {
    var body := CYCLE[2].body;
    assert body[..0] == [] && body[..1] == body;
    ImportPhaseNext(CYCLE, st, st["c"], body, 0);
    NothingAssigned(st, ImportPhase(CYCLE, st, st["c"], body), body);
  }

  /** A state of the cycle: no aliases, and at most the one name. */
  predicate Simple(st: State) {
    st.Keys == {"a", "b", "c"} && forall m | m in st :: st[m].order == [] && st[m].targets == map[] && st[m].kinds.Keys <= {"x"}
  }

  lemma CyclePass(st: State)
    requires Keyed(CYCLE, st) && Simple(st)
    ensures var fromB, fromC := Or(KindAt(st, "b", "x"), ContextVar), Or(KindAt(st, "c", "x"), ContextLocal);
      Pass(CYCLE, st) == Three(Only(fromB), Only(fromC), Only(fromB))
  {
    hide ModuleTable, Keyed, WellKeyed, PassUpTo;
    var fromB, fromC := Or(KindAt(st, "b", "x"), ContextVar), Or(KindAt(st, "c", "x"), ContextLocal);
    OwnThenImported(st, 0, "b");
    var s1 := st["a" := Only(fromB)];
    OwnThenImported(s1, 1, "c");
    var s2 := s1["b" := Only(fromC)];
    OnlyImported(s2);
    assert s2["c" := Only(fromB)] == Three(Only(fromB), Only(fromC), Only(fromB));
    ThreeSteps(st, s1, s2);
  }

  lemma ThreeSteps(st: State, s1: State, s2: State)
    requires Keyed(CYCLE, st)
    requires "a" in st && WellKeyed(st["a"]) && s1 == st["a" := ModuleTable(CYCLE, st, CYCLE[0])]
    requires "b" in s1 && WellKeyed(s1["b"]) && s2 == s1["b" := ModuleTable(CYCLE, s1, CYCLE[1])]
    requires "c" in s2 && WellKeyed(s2["c"])
    ensures Pass(CYCLE, st) == s2["c" := ModuleTable(CYCLE, s2, CYCLE[2])]
  {
    hide ModuleTable, Keyed, WellKeyed;
    assert PassUpTo(CYCLE, st, 0) == st;
    assert PassUpTo(CYCLE, st, 1) == s1;
    assert PassUpTo(CYCLE, st, 2) == s2;
  }

  lemma CycleState(st: State, a: Kind, b: Kind)
    requires st == Three(Only(a), Only(b), Only(a)) && Keyed(CYCLE, st)
    ensures Pass(CYCLE, st) == Three(Only(b), Only(a), Only(b))
  {
    hide Pass, Keyed;
    CyclePass(st);
  }

  lemma {:induction false} Alternates(n: nat)
    ensures AfterPasses(CYCLE, n + 1) ==
      if n % 2 == 0 then Three(Only(ContextVar), Only(ContextLocal), Only(ContextVar))
      else Three(Only(ContextLocal), Only(ContextVar), Only(ContextLocal))
  {
    hide Pass, Keyed;
    if n == 0 {
      CycleNames();
      CyclePass(AfterPasses(CYCLE, 0));
    } else {
      Alternates(n - 1);
      if n % 2 == 0 {
        CycleState(AfterPasses(CYCLE, n), ContextLocal, ContextVar);
      } else {
        CycleState(AfterPasses(CYCLE, n), ContextVar, ContextLocal);
      }
    }
  }

  /** Two meanings for one name can keep the passes going for ever: on the cycle no pass
      ever leaves the state as it found it. */
  lemma NeverSettles(n: nat)
    ensures AfterPasses(CYCLE, n + 1) != AfterPasses(CYCLE, n)
  {
    hide Pass, Keyed, AfterPasses;
    Alternates(n);
    if n == 0 {
      NothingAtFirst();
    } else {
      Alternates(n - 1);
      assert Only(ContextVar).kinds["x"] != Only(ContextLocal).kinds["x"];
      assert Three(Only(ContextVar), Only(ContextLocal), Only(ContextVar))["a"]
          != Three(Only(ContextLocal), Only(ContextVar), Only(ContextLocal))["a"];
    }
  }

  lemma CycleRunsForEver()
    ensures !Settles(CYCLE)
  {
    hide Pass, Keyed, AfterPasses, PassChanges;
    forall n: nat
      ensures PassChanges(CYCLE, AfterPasses(CYCLE, n))
    {
      NeverSettles(n);
      NextIsPass(CYCLE, n);
      if !PassChanges(CYCLE, AfterPasses(CYCLE, n)) {
        QuietPass(CYCLE, AfterPasses(CYCLE, n));
      }
    }
  }

  lemma NothingAtFirst()
    ensures AfterPasses(CYCLE, 0) != Three(Only(ContextVar), Only(ContextLocal), Only(ContextVar))
  {
    assert Only(ContextVar).kinds.Keys == {"x"};
    assert "a" in Three(Only(ContextVar), Only(ContextLocal), Only(ContextVar));
  }
}
