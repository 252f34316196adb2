/** Modules as the context scan sees them, and what their names can be derived to mean. */
module ContextModules {
  import opened Prelude

  datatype Kind = ContextVar | ContextLocal

  /** One import alias or one assignment of a dotted name; `local` is the name it binds. */
  datatype Statement =
    | Import(name: string, local: string)
    | ImportFrom(source: string, name: string, local: string)
    | Assign(local: string, dotted: string)

  datatype Module = Module(name: string, body: seq<Statement>)

  type Program = seq<Module>

  /** A name stands for a constructor or for a module. */
  datatype Meaning = Constructor(kind: Kind) | Imported(path: string)

  const VAR_MODULES: set<string> := {"contextvars", "_contextvars"}
  const LOCAL_MODULE := "core.ui.context_local"

  predicate Known(p: Program, name: string) {
    exists mod | mod in p :: mod.name == name
  }

  predicate Importable(p: Program, name: string) {
    name in VAR_MODULES || name == LOCAL_MODULE || Known(p, name)
  }

  /** The constructors themselves. */
  function Builtin(source: string, name: string): Option<Kind> {
    if source in VAR_MODULES && name == "ContextVar" then Some(ContextVar)
    else if source == LOCAL_MODULE && name == "ContextLocal" then Some(ContextLocal)
    else None
  }

  function Join(source: string, name: string): string { source + "." + name }

  predicate HasPrefix(dotted: string, alias: string) {
    |alias| < |dotted| && dotted[..|alias|] == alias && dotted[|alias|] == '.'
  }

  function Symbol(dotted: string, alias: string): string
    requires HasPrefix(dotted, alias)
  {
    dotted[|alias| + 1..]
  }

  predicate InModule(p: Program, m: string, s: Statement) {
    exists mod | mod in p :: mod.name == m && s in mod.body
  }

  predicate Binds(p: Program, m: string, x: string) {
    exists mod, s | mod in p && s in mod.body :: mod.name == m && s.local == x
  }

  // ---- Derivations --------------------------------------------------------------------------

  /** Name `x` of module `m` means `v` by a derivation of depth at most `depth`. */
  ghost predicate Derives(depth: nat, p: Program, m: string, x: string, v: Meaning)
    decreases depth, 0
  {
    depth > 0 && exists s :: InModule(p, m, s) && s.local == x && Yields(depth - 1, p, m, s, v)
  }

  /** What one statement lets its name mean, given shorter derivations. */
  ghost predicate Yields(depth: nat, p: Program, m: string, s: Statement, v: Meaning)
    decreases depth, 2
  {
    match s
    case Import(name, _) => Importable(p, name) && v == Imported(name)
    case ImportFrom(source, name, _) =>
      || (Builtin(source, name).Some? && v == Constructor(Builtin(source, name).value))
      || (Known(p, Join(source, name)) && v == Imported(Join(source, name)))
      || Derives(depth, p, source, name, v)
    case Assign(_, dotted) =>
      || Derives(depth, p, m, dotted, v)
      || (exists alias, path :: ThroughAlias(depth, p, m, dotted, alias, path, v))
  }

  ghost predicate ThroughAlias(depth: nat, p: Program, m: string, dotted: string, alias: string, path: string, v: Meaning)
    decreases depth, 1
  {
    && HasPrefix(dotted, alias)
    && Derives(depth, p, m, alias, Imported(path))
    && v.Constructor?
    && (Builtin(path, Symbol(dotted, alias)) == Some(v.kind) || Derives(depth, p, path, Symbol(dotted, alias), v))
  }

  ghost predicate Derivable(p: Program, m: string, x: string, v: Meaning) {
    exists depth: nat :: Derives(depth, p, m, x, v)
  }

  lemma {:induction false} Deeper(small: nat, large: nat, p: Program, m: string, x: string, v: Meaning)
    requires small <= large && Derives(small, p, m, x, v)
    ensures Derives(large, p, m, x, v)
    decreases small, 0
  {
    var s :| InModule(p, m, s) && s.local == x && Yields(small - 1, p, m, s, v);
    YieldsDeeper(small - 1, large - 1, p, m, s, v);
  }

  lemma {:induction false} YieldsDeeper(small: nat, large: nat, p: Program, m: string, s: Statement, v: Meaning)
    requires small <= large && Yields(small, p, m, s, v)
    ensures Yields(large, p, m, s, v)
    decreases small, 1
  {
    match s {
      case Import(_, _) =>
      case ImportFrom(source, name, _) =>
        if Derives(small, p, source, name, v) {
          Deeper(small, large, p, source, name, v);
        }
      case Assign(_, dotted) =>
        if Derives(small, p, m, dotted, v) {
          Deeper(small, large, p, m, dotted, v);
        } else {
          var alias, path :| ThroughAlias(small, p, m, dotted, alias, path, v);
          Deeper(small, large, p, m, alias, Imported(path));
          if Derives(small, p, path, Symbol(dotted, alias), v) {
            Deeper(small, large, p, path, Symbol(dotted, alias), v);
          }
          assert ThroughAlias(large, p, m, dotted, alias, path, v);
        }
    }
  }

  /** A statement of the module whose premises are derivable makes its conclusion so. */
  lemma DerivableBy(depth: nat, p: Program, m: string, s: Statement, v: Meaning)
    requires InModule(p, m, s) && Yields(depth, p, m, s, v)
    ensures Derivable(p, m, s.local, v)
  {
    assert Derives(depth + 1, p, m, s.local, v);
  }

  lemma DerivedName(p: Program, m: string, s: Statement, from: string, x: string, v: Meaning)
    requires InModule(p, m, s) && Derivable(p, from, x, v)
    requires (s.ImportFrom? && s.source == from && s.name == x) || (s.Assign? && from == m && s.dotted == x)
    ensures Derivable(p, m, s.local, v)
  {
    var depth: nat :| Derives(depth, p, from, x, v);
    assert Yields(depth, p, m, s, v);
    DerivableBy(depth, p, m, s, v);
  }

  lemma DerivedThroughAlias(p: Program, m: string, s: Statement, alias: string, path: string, kind: Kind)
    requires InModule(p, m, s) && s.Assign? && HasPrefix(s.dotted, alias)
    requires Derivable(p, m, alias, Imported(path))
    requires Builtin(path, Symbol(s.dotted, alias)) == Some(kind)
          || Derivable(p, path, Symbol(s.dotted, alias), Constructor(kind))
    ensures Derivable(p, m, s.local, Constructor(kind))
  {
    var v := Constructor(kind);
    var a: nat :| Derives(a, p, m, alias, Imported(path));
    if Builtin(path, Symbol(s.dotted, alias)) == Some(kind) {
      assert ThroughAlias(a, p, m, s.dotted, alias, path, v);
      assert Yields(a, p, m, s, v);
      DerivableBy(a, p, m, s, v);
    } else {
      var b: nat :| Derives(b, p, path, Symbol(s.dotted, alias), v);
      var c := if a < b then b else a;
      Deeper(a, c, p, m, alias, Imported(path));
      Deeper(b, c, p, path, Symbol(s.dotted, alias), v);
      assert ThroughAlias(c, p, m, s.dotted, alias, path, v);
      assert Yields(c, p, m, s, v);
      DerivableBy(c, p, m, s, v);
    }
  }

  lemma DerivedIsBound(p: Program, m: string, x: string, v: Meaning)
    requires Derivable(p, m, x, v)
    ensures Binds(p, m, x)
  {
    var depth: nat :| Derives(depth, p, m, x, v);
    var s :| InModule(p, m, s) && s.local == x && Yields(depth - 1, p, m, s, v);
    var mod :| mod in p && mod.name == m && s in mod.body;
  }

  /** Derivability depends on which statements each module name has, not on their order. */
  predicate SameStatements(p: Program, q: Program) {
    && (forall mod | mod in p :: Known(q, mod.name))
    && (forall mod | mod in q :: Known(p, mod.name))
    && (forall mod, s | mod in p && s in mod.body :: InModule(q, mod.name, s))
    && (forall mod, s | mod in q && s in mod.body :: InModule(p, mod.name, s))
  }

  lemma {:induction false} SameDerivations(depth: nat, p: Program, q: Program, m: string, x: string, v: Meaning)
    requires SameStatements(p, q) && Derives(depth, p, m, x, v)
    ensures Derives(depth, q, m, x, v)
    decreases depth, 0
  {
    var s :| InModule(p, m, s) && s.local == x && Yields(depth - 1, p, m, s, v);
    assert InModule(q, m, s) by {
      var mod :| mod in p && mod.name == m && s in mod.body;
    }
    SameYields(depth - 1, p, q, m, s, v);
  }

  lemma SameKnown(p: Program, q: Program, name: string)
    requires SameStatements(p, q) && Known(p, name)
    ensures Known(q, name)
  {
    var mod :| mod in p && mod.name == name;
  }

  lemma {:induction false} SameYields(depth: nat, p: Program, q: Program, m: string, s: Statement, v: Meaning)
    requires SameStatements(p, q) && Yields(depth, p, m, s, v)
    ensures Yields(depth, q, m, s, v)
    decreases depth, 1
  {
    match s {
      case Import(name, _) =>
        if Known(p, name) {
          SameKnown(p, q, name);
        }
      case ImportFrom(source, name, _) =>
        if Known(p, Join(source, name)) {
          SameKnown(p, q, Join(source, name));
        }
        if Derives(depth, p, source, name, v) {
          SameDerivations(depth, p, q, source, name, v);
        }
      case Assign(_, dotted) =>
        if Derives(depth, p, m, dotted, v) {
          SameDerivations(depth, p, q, m, dotted, v);
        } else {
          var alias, path :| ThroughAlias(depth, p, m, dotted, alias, path, v);
          SameDerivations(depth, p, q, m, alias, Imported(path));
          if Derives(depth, p, path, Symbol(dotted, alias), v) {
            SameDerivations(depth, p, q, path, Symbol(dotted, alias), v);
          }
          assert ThroughAlias(depth, q, m, dotted, alias, path, v);
        }
    }
  }

  // ---- One meaning for each name ----------------------------------------------------------------

  ghost predicate OneMeaning(p: Program) {
    forall m, x, v, w :: Derivable(p, m, x, v) && Derivable(p, m, x, w) ==> v == w
  }

  /** No dotted value goes through two names of its module. */
  ghost predicate PrefixesApart(p: Program) {
    forall m, s, a, b ::
      InModule(p, m, s) && s.Assign? && Binds(p, m, a) && Binds(p, m, b) && HasPrefix(s.dotted, a) && HasPrefix(s.dotted, b)
      ==> a == b
  }

  predicate Starts(dotted: string, a: string) { dotted == a || HasPrefix(dotted, a) }

  /** What can be read off the text: each module binds a name by one statement, no
      constructor's home rebinds it, no imported name is both a submodule and bound, and
      no value starts with two bound names. */
  ghost predicate PlainNames(p: Program) {
    && (forall m, s, t :: InModule(p, m, s) && InModule(p, m, t) && s.local == t.local ==> s == t)
    && (forall source, name :: Builtin(source, name).Some? ==> !Binds(p, source, name) && !Known(p, Join(source, name)))
    && (forall m, s :: InModule(p, m, s) && s.ImportFrom? && Known(p, Join(s.source, s.name)) ==> !Binds(p, s.source, s.name))
    && (forall m, s, a, b ::
          InModule(p, m, s) && s.Assign? && Binds(p, m, a) && Binds(p, m, b) && Starts(s.dotted, a) && Starts(s.dotted, b)
          ==> a == b)
  }

  lemma DerivesBinds(depth: nat, p: Program, m: string, x: string, v: Meaning)
    requires Derives(depth, p, m, x, v)
    ensures Binds(p, m, x)
  {
    assert Derivable(p, m, x, v);
    DerivedIsBound(p, m, x, v);
  }

  lemma {:induction false} PlainMeaning(j: nat, k: nat, p: Program, m: string, x: string, v: Meaning, w: Meaning)
    requires PlainNames(p) && Derives(j, p, m, x, v) && Derives(k, p, m, x, w)
    ensures v == w
    decreases j, 0
  {
    var s :| InModule(p, m, s) && s.local == x && Yields(j - 1, p, m, s, v);
    var t :| InModule(p, m, t) && t.local == x && Yields(k - 1, p, m, t, w);
    assert s == t;
    match s {
      case Import(_, _) =>
      case ImportFrom(source, name, _) => PlainImport(j - 1, k - 1, p, m, s, v, w);
      case Assign(_, dotted) => PlainAssign(j - 1, k - 1, p, m, s, v, w);
    }
  }

  lemma {:induction false} PlainImport(j: nat, k: nat, p: Program, m: string, s: Statement, v: Meaning, w: Meaning)
    requires PlainNames(p) && InModule(p, m, s) && s.ImportFrom? && Yields(j, p, m, s, v) && Yields(k, p, m, s, w)
    ensures v == w
    decreases j, 2
  {
    var source, name := s.source, s.name;
    if Derives(j, p, source, name, v) {
      DerivesBinds(j, p, source, name, v);
      if Derives(k, p, source, name, w) {
        PlainMeaning(j, k, p, source, name, v, w);
      }
    } else if Derives(k, p, source, name, w) {
      DerivesBinds(k, p, source, name, w);
    }
  }

  lemma {:induction false} PlainAssign(j: nat, k: nat, p: Program, m: string, s: Statement, v: Meaning, w: Meaning)
    requires PlainNames(p) && InModule(p, m, s) && s.Assign? && Yields(j, p, m, s, v) && Yields(k, p, m, s, w)
    ensures v == w
    decreases j, 2
  {
    var dotted := s.dotted;
    if Derives(j, p, m, dotted, v) {
      DerivesBinds(j, p, m, dotted, v);
      if Derives(k, p, m, dotted, w) {
        PlainMeaning(j, k, p, m, dotted, v, w);
      } else {
        var b, path :| ThroughAlias(k, p, m, dotted, b, path, w);
        DerivesBinds(k, p, m, b, Imported(path));
        assert Starts(dotted, dotted) && Starts(dotted, b);
      }
    } else {
      var a, path :| ThroughAlias(j, p, m, dotted, a, path, v);
      DerivesBinds(j, p, m, a, Imported(path));
      assert Starts(dotted, a);
      if Derives(k, p, m, dotted, w) {
        DerivesBinds(k, p, m, dotted, w);
        assert Starts(dotted, dotted);
      } else {
        var b, road :| ThroughAlias(k, p, m, dotted, b, road, w);
        DerivesBinds(k, p, m, b, Imported(road));
        assert Starts(dotted, b);
        PlainMeaning(j, k, p, m, a, Imported(path), Imported(road));
        SameSymbol(j, k, p, path, Symbol(dotted, a), v, w);
      }
    }
  }

  lemma {:induction false} SameSymbol(j: nat, k: nat, p: Program, path: string, symbol: string, v: Meaning, w: Meaning)
    requires PlainNames(p) && v.Constructor? && w.Constructor?
    requires Builtin(path, symbol) == Some(v.kind) || Derives(j, p, path, symbol, v)
    requires Builtin(path, symbol) == Some(w.kind) || Derives(k, p, path, symbol, w)
    ensures v == w
    decreases j, 1
  {
    if Derives(j, p, path, symbol, v) {
      DerivesBinds(j, p, path, symbol, v);
      if Derives(k, p, path, symbol, w) {
        PlainMeaning(j, k, p, path, symbol, v, w);
      }
    } else if Derives(k, p, path, symbol, w) {
      DerivesBinds(k, p, path, symbol, w);
    }
  }

  /** Names that are plain in the text have one meaning, however long the derivations. */
  lemma PlainNamesHaveOneMeaning(p: Program)
    requires PlainNames(p)
    ensures OneMeaning(p) && PrefixesApart(p)
  {
    forall m, x, v, w | Derivable(p, m, x, v) && Derivable(p, m, x, w)
      ensures v == w
    {
      var j: nat :| Derives(j, p, m, x, v);
      var k: nat :| Derives(k, p, m, x, w);
      PlainMeaning(j, k, p, m, x, v, w);
    }
    forall m, s, a, b | InModule(p, m, s) && s.Assign? && Binds(p, m, a) && Binds(p, m, b)
        && HasPrefix(s.dotted, a) && HasPrefix(s.dotted, b)
      ensures a == b
    {
      assert Starts(s.dotted, a) && Starts(s.dotted, b);
    }
  }
}
