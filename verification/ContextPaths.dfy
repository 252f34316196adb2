/** The dotted paths under which a module offers constructors: its own names, and those of
    the modules its aliases lead to, each module entered at most once on the way. */
module ContextPaths {
  import opened Prelude
  import opened ContextModules
  import opened ContextExports

  function Lengthened(alias: string, paths: map<string, Kind>): set<string> {
    set nested | nested in paths :: Join(alias, nested)
  }

  function Prefixed(alias: string, paths: map<string, Kind>): map<string, Kind> {
    map path | path in Lengthened(alias, paths) :: paths[path[|alias| + 1..]]
  }

  /** `_exported_context_constructor_paths`: `seen` shrinks what may still be entered. */
  function Paths(st: State, m: string, seen: set<string>): map<string, Kind>
    decreases |st.Keys - seen|, 1, 0
  {
    if m in VAR_MODULES then map["ContextVar" := ContextVar]
    else if m == LOCAL_MODULE then map["ContextLocal" := ContextLocal]
    else if m in seen || m !in st then map[]
    else
      SmallerLeft(st.Keys, seen, m);
      st[m].kinds + AliasPaths(st, st[m], st[m].order, seen + {m})
  }

  /** The paths through the aliases, a later alias overriding an earlier one. */
  function AliasPaths(st: State, t: Table, order: seq<string>, seen: set<string>): map<string, Kind>
    decreases |st.Keys - seen|, 2, |order|
  {
    if order == [] then map[]
    else
      var alias := order[|order| - 1];
      var rest := AliasPaths(st, t, order[..|order| - 1], seen);
      if alias in t.targets then rest + Prefixed(alias, Paths(st, t.targets[alias], seen)) else rest
  }

  lemma SmallerLeft(all: set<string>, seen: set<string>, m: string)
    requires m in all && m !in seen
    ensures |all - (seen + {m})| < |all - seen|
  {
    SubsetSize(all - (seen + {m}), all - seen - {m});
  }

  // ---- What a path means ----------------------------------------------------------------------

  /** A walk: through aliases, never entering a module twice, to a constructor. */
  ghost predicate Walk(steps: nat, st: State, m: string, seen: set<string>, path: string, kind: Kind)
    decreases steps, 1
  {
    if m in VAR_MODULES || m == LOCAL_MODULE then Builtin(m, path) == Some(kind)
    else
      && m !in seen && m in st
      && ((path in st[m].kinds && st[m].kinds[path] == kind)
          || exists alias :: WalkThrough(steps, st, st[m], seen + {m}, path, alias, kind))
  }

  ghost predicate WalkThrough(steps: nat, st: State, t: Table, seen: set<string>, path: string, alias: string, kind: Kind)
    decreases steps, 0
  {
    && steps > 0 && alias in t.targets && HasPrefix(path, alias)
    && Walk(steps - 1, st, t.targets[alias], seen, Symbol(path, alias), kind)
  }

  lemma PrefixedIs(alias: string, paths: map<string, Kind>, path: string)
    ensures path in Prefixed(alias, paths) <==> HasPrefix(path, alias) && Symbol(path, alias) in paths
    ensures path in Prefixed(alias, paths) ==> Prefixed(alias, paths)[path] == paths[Symbol(path, alias)]
  {
    if HasPrefix(path, alias) && Symbol(path, alias) in paths {
      assert path == Join(alias, Symbol(path, alias));
    }
    forall nested | nested in paths && Join(alias, nested) == path
      ensures HasPrefix(path, alias) && Symbol(path, alias) == nested
    {
      assert path[..|alias|] == alias && path[|alias|] == '.' && path[|alias| + 1..] == nested;
    }
  }

  lemma {:induction false} LongerWalk(few: nat, many: nat, st: State, m: string, seen: set<string>, path: string, kind: Kind)
    requires few <= many && Walk(few, st, m, seen, path, kind)
    ensures Walk(many, st, m, seen, path, kind)
    decreases few
  {
    if !(m in VAR_MODULES || m == LOCAL_MODULE) && !(path in st[m].kinds && st[m].kinds[path] == kind) {
      var alias :| WalkThrough(few, st, st[m], seen + {m}, path, alias, kind);
      LongerWalk(few - 1, many - 1, st, st[m].targets[alias], seen + {m}, Symbol(path, alias), kind);
      assert WalkThrough(many, st, st[m], seen + {m}, path, alias, kind);
    }
  }

  /** The recursion finds nothing but walks, and says which constructor they reach. */
  lemma {:induction false} PathsAreWalks(st: State, m: string, seen: set<string>, path: string)
    requires path in Paths(st, m, seen)
    ensures Walk(|st.Keys - seen|, st, m, seen, path, Paths(st, m, seen)[path])
    decreases |st.Keys - seen|, 1, 0
  {
    if !(m in VAR_MODULES || m == LOCAL_MODULE) {
      SmallerLeft(st.Keys, seen, m);
      var through := AliasPaths(st, st[m], st[m].order, seen + {m});
      if path in through {
        var alias := AliasPathsAreWalks(st, st[m], st[m].order, seen + {m}, path);
        var steps := |st.Keys - (seen + {m})|;
        LongerWalk(steps, |st.Keys - seen| - 1, st, st[m].targets[alias], seen + {m}, Symbol(path, alias), through[path]);
        assert WalkThrough(|st.Keys - seen|, st, st[m], seen + {m}, path, alias, through[path]);
      }
    }
  }

  lemma {:induction false} AliasPathsAreWalks(st: State, t: Table, order: seq<string>, seen: set<string>, path: string)
    returns (alias: string)
    requires path in AliasPaths(st, t, order, seen)
    ensures alias in t.targets && HasPrefix(path, alias)
    ensures Walk(|st.Keys - seen|, st, t.targets[alias], seen, Symbol(path, alias), AliasPaths(st, t, order, seen)[path])
    decreases |st.Keys - seen|, 2, |order|
  {
    var last, init := order[|order| - 1], order[..|order| - 1];
    if last in t.targets {
      PrefixedIs(last, Paths(st, t.targets[last], seen), path);
      if HasPrefix(path, last) && Symbol(path, last) in Paths(st, t.targets[last], seen) {
        PathsAreWalks(st, t.targets[last], seen, Symbol(path, last));
        return last;
      }
    }
    alias := AliasPathsAreWalks(st, t, init, seen, path);
  }

  /** And it finds every walk. */
  lemma {:induction false} WalksAreFound(steps: nat, st: State, m: string, seen: set<string>, path: string, kind: Kind)
    requires Walk(steps, st, m, seen, path, kind) && forall n | n in st :: WellKeyed(st[n])
    ensures path in Paths(st, m, seen)
    decreases steps
  {
    if !(m in VAR_MODULES || m == LOCAL_MODULE) && path !in st[m].kinds {
      SmallerLeft(st.Keys, seen, m);
      var alias :| WalkThrough(steps, st, st[m], seen + {m}, path, alias, kind);
      WalksAreFound(steps - 1, st, st[m].targets[alias], seen + {m}, Symbol(path, alias), kind);
      AliasFound(st, st[m], st[m].order, seen + {m}, path, alias);
    }
  }

  lemma {:induction false} AliasFound(st: State, t: Table, order: seq<string>, seen: set<string>, path: string, alias: string)
    requires alias in order && alias in t.targets && HasPrefix(path, alias)
    requires Symbol(path, alias) in Paths(st, t.targets[alias], seen)
    ensures path in AliasPaths(st, t, order, seen)
    decreases |order|
  {
    hide Prefixed, Paths;
    var last := order[|order| - 1];
    if last == alias {
      PrefixedIs(alias, Paths(st, t.targets[alias], seen), path);
    } else {
      AliasFound(st, t, order[..|order| - 1], seen, path, alias);
    }
  }

  // ---- Which walk decides --------------------------------------------------------------------

  ghost predicate Reachable(st: State, m: string, seen: set<string>, path: string) {
    exists steps: nat, kind :: Walk(steps, st, m, seen, path, kind)
  }

  /** Some walk takes this alias first. */
  ghost predicate Offers(st: State, t: Table, seen: set<string>, path: string, alias: string) {
    alias in t.targets && HasPrefix(path, alias) && Reachable(st, t.targets[alias], seen, Symbol(path, alias))
  }

  /** The deciding walk: at each module it takes the last alias that leads anywhere, and the
      module's own constructor only when no alias does. */
  ghost predicate Decides(steps: nat, st: State, m: string, seen: set<string>, path: string, kind: Kind)
    decreases steps, 1
  {
    if m in VAR_MODULES || m == LOCAL_MODULE then Builtin(m, path) == Some(kind)
    else
      && m !in seen && m in st
      && var t := st[m];
         || (path in t.kinds && t.kinds[path] == kind && forall alias :: !Offers(st, t, seen + {m}, path, alias))
         || exists k :: DecidesThrough(steps, st, t, seen + {m}, path, k, kind)
  }

  ghost predicate DecidesThrough(
    steps: nat, st: State, t: Table, seen: set<string>, path: string, k: int, kind: Kind)
    decreases steps, 0
  {
    && steps > 0 && 0 <= k < |t.order| && t.order[k] in t.targets && HasPrefix(path, t.order[k])
    && (forall l | k < l < |t.order| :: !Offers(st, t, seen, path, t.order[l]))
    && Decides(steps - 1, st, t.targets[t.order[k]], seen, Symbol(path, t.order[k]), kind)
  }

  lemma FoundIffReachable(st: State, m: string, seen: set<string>, path: string)
    requires forall n | n in st :: WellKeyed(st[n])
    ensures path in Paths(st, m, seen) <==> Reachable(st, m, seen, path)
  {
    hide Paths, Walk, WellKeyed;
    if path in Paths(st, m, seen) {
      PathsAreWalks(st, m, seen, path);
    }
    if steps: nat, kind :| Walk(steps, st, m, seen, path, kind) {
      WalksAreFound(steps, st, m, seen, path, kind);
    }
  }

  /** Among the aliases that offer the path the last one supplies it. */
  lemma {:induction false} LastAliasWins(
    st: State, t: Table, order: seq<string>, seen: set<string>, path: string, k: nat)
    requires forall n | n in st :: WellKeyed(st[n])
    requires k < |order| && Offers(st, t, seen, path, order[k])
    requires forall l | k < l < |order| :: !Offers(st, t, seen, path, order[l])
    ensures var from := Paths(st, t.targets[order[k]], seen);
      && path in AliasPaths(st, t, order, seen) && Symbol(path, order[k]) in from
      && AliasPaths(st, t, order, seen)[path] == from[Symbol(path, order[k])]
    decreases |order|
  {
    hide Prefixed, Paths, Walk, WellKeyed, Reachable;
    var last, init := order[|order| - 1], order[..|order| - 1];
    if last in t.targets {
      PrefixedIs(last, Paths(st, t.targets[last], seen), path);
      if HasPrefix(path, last) {
        FoundIffReachable(st, t.targets[last], seen, Symbol(path, last));
      }
    }
    if k < |init| {
      LastAliasWins(st, t, init, seen, path, k);
    }
  }

  lemma {:induction false} NoAliasOffers(st: State, t: Table, order: seq<string>, seen: set<string>, path: string)
    requires forall n | n in st :: WellKeyed(st[n])
    requires forall alias | alias in order :: !Offers(st, t, seen, path, alias)
    ensures path !in AliasPaths(st, t, order, seen)
    decreases |order|
  {
    hide Prefixed, Paths, Walk, WellKeyed, Reachable;
    if order != [] {
      var last, init := order[|order| - 1], order[..|order| - 1];
      NoAliasOffers(st, t, init, seen, path);
      assert !Offers(st, t, seen, path, last);
      if last in t.targets {
        PrefixedIs(last, Paths(st, t.targets[last], seen), path);
        if HasPrefix(path, last) {
          FoundIffReachable(st, t.targets[last], seen, Symbol(path, last));
        }
      }
    }
  }

  /** Where some alias offers the path, one of them is the last to do so. */
  lemma {:induction false} LastOffer(st: State, t: Table, seen: set<string>, path: string, n: nat) returns (k: nat)
    requires n <= |t.order| && exists l :: 0 <= l < n && Offers(st, t, seen, path, t.order[l])
    ensures k < n && Offers(st, t, seen, path, t.order[k])
    ensures forall l | k < l < n :: !Offers(st, t, seen, path, t.order[l])
  {
    hide Offers;
    if Offers(st, t, seen, path, t.order[n - 1]) {
      k := n - 1;
    } else {
      k := LastOffer(st, t, seen, path, n - 1);
    }
  }

  lemma {:induction false} LongerDecides(
    few: nat, many: nat, st: State, m: string, seen: set<string>, path: string, kind: Kind)
    requires few <= many && Decides(few, st, m, seen, path, kind)
    ensures Decides(many, st, m, seen, path, kind)
    decreases few
  {
    hide Offers;
    if !(m in VAR_MODULES || m == LOCAL_MODULE) {
      var t := st[m];
      if k :| DecidesThrough(few, st, t, seen + {m}, path, k, kind) {
        LongerDecides(few - 1, many - 1, st, t.targets[t.order[k]], seen + {m}, Symbol(path, t.order[k]), kind);
        assert DecidesThrough(many, st, t, seen + {m}, path, k, kind);
      }
    }
  }

  /** The deciding walk is what the recursion returns. */
  lemma {:induction false} DecidedIsFound(
    steps: nat, st: State, m: string, seen: set<string>, path: string, kind: Kind)
    requires Decides(steps, st, m, seen, path, kind) && forall n | n in st :: WellKeyed(st[n])
    ensures path in Paths(st, m, seen) && Paths(st, m, seen)[path] == kind
    decreases steps
  {
    hide Offers, WellKeyed, AliasPaths, Reachable;
    if !(m in VAR_MODULES || m == LOCAL_MODULE) {
      SmallerLeft(st.Keys, seen, m);
      var t, further := st[m], seen + {m};
      if k :| DecidesThrough(steps, st, t, further, path, k, kind) {
        var target, symbol := t.targets[t.order[k]], Symbol(path, t.order[k]);
        DecidedIsFound(steps - 1, st, target, further, symbol, kind);
        FoundIffReachable(st, target, further, symbol);
        OfferedBy(st, t, further, path, t.order[k]);
        LastAliasWins(st, t, t.order, further, path, k);
      } else {
        NoAliasOffers(st, t, t.order, further, path);
      }
    }
  }

  lemma OfferedBy(st: State, t: Table, seen: set<string>, path: string, alias: string)
    requires alias in t.targets && HasPrefix(path, alias)
    requires Reachable(st, t.targets[alias], seen, Symbol(path, alias))
    ensures Offers(st, t, seen, path, alias)
  {
  }

  lemma {:induction false} FoundIsDecided(st: State, m: string, seen: set<string>, path: string)
    requires path in Paths(st, m, seen) && forall n | n in st :: WellKeyed(st[n])
    ensures Decides(|st.Keys - seen|, st, m, seen, path, Paths(st, m, seen)[path])
    decreases |st.Keys - seen|, 1
  {
    if !(m in VAR_MODULES || m == LOCAL_MODULE) {
      SmallerLeft(st.Keys, seen, m);
      var t, further := st[m], seen + {m};
      if exists l :: 0 <= l < |t.order| && Offers(st, t, further, path, t.order[l]) {
        FoundThrough(st, m, seen, path);
      } else {
        assert WellKeyed(t);
        hide AliasPaths, Reachable;
        NoAliasOffers(st, t, t.order, further, path);
        assert forall alias | Offers(st, t, further, path, alias) :: alias in t.order;
      }
    }
  }

  lemma {:induction false} FoundThrough(st: State, m: string, seen: set<string>, path: string)
    requires !(m in VAR_MODULES || m == LOCAL_MODULE) && m !in seen && m in st
    requires path in Paths(st, m, seen) && forall n | n in st :: WellKeyed(st[n])
    requires exists l :: 0 <= l < |st[m].order| && Offers(st, st[m], seen + {m}, path, st[m].order[l])
    ensures Decides(|st.Keys - seen|, st, m, seen, path, Paths(st, m, seen)[path])
    decreases |st.Keys - seen|, 0
  {
    SmallerLeft(st.Keys, seen, m);
    var t, further := st[m], seen + {m};
    hide Paths, AliasPaths, Offers, Decides, DecidesThrough, WellKeyed;
    var k := LastOffer(st, t, further, path, |t.order|);
    LastAliasWins(st, t, t.order, further, path, k);
    AliasesFirst(st, m, seen, path);
    OffersParts(st, t, further, path, t.order[k]);
    var target, symbol := t.targets[t.order[k]], Symbol(path, t.order[k]);
    FoundIsDecided(st, target, further, symbol);
    DecidesBy(|st.Keys - further|, |st.Keys - seen|, st, m, seen, path, k, Paths(st, m, seen)[path]);
  }

  lemma AliasesFirst(st: State, m: string, seen: set<string>, path: string)
    requires !(m in VAR_MODULES || m == LOCAL_MODULE) && m !in seen && m in st
    ensures path in AliasPaths(st, st[m], st[m].order, seen + {m}) ==>
      path in Paths(st, m, seen) && Paths(st, m, seen)[path] == AliasPaths(st, st[m], st[m].order, seen + {m})[path]
  {
    hide AliasPaths;
  }

  lemma OffersParts(st: State, t: Table, seen: set<string>, path: string, alias: string)
    requires Offers(st, t, seen, path, alias)
    ensures alias in t.targets && HasPrefix(path, alias)
  {
  }

  lemma DecidesBy(
    few: nat, many: nat, st: State, m: string, seen: set<string>, path: string, k: nat, kind: Kind)
    requires !(m in VAR_MODULES || m == LOCAL_MODULE) && m !in seen && m in st && few < many
    requires k < |st[m].order| && st[m].order[k] in st[m].targets && HasPrefix(path, st[m].order[k])
    requires forall l | k < l < |st[m].order| :: !Offers(st, st[m], seen + {m}, path, st[m].order[l])
    requires Decides(few, st, st[m].targets[st[m].order[k]], seen + {m}, Symbol(path, st[m].order[k]), kind)
    ensures Decides(many, st, m, seen, path, kind)
  {
    hide Offers;
    var t := st[m];
    LongerDecides(few, many - 1, st, t.targets[t.order[k]], seen + {m}, Symbol(path, t.order[k]), kind);
    assert DecidesThrough(many, st, t, seen + {m}, path, k, kind);
  }

  /** A path is returned under a kind exactly when a deciding walk reaches that kind. */
  lemma FoundIffDecided(st: State, m: string, seen: set<string>, path: string, kind: Kind)
    requires forall n | n in st :: WellKeyed(st[n])
    ensures path in Paths(st, m, seen) && Paths(st, m, seen)[path] == kind
      <==> exists steps: nat :: Decides(steps, st, m, seen, path, kind)
  {
    hide Paths, Decides, WellKeyed;
    if path in Paths(st, m, seen) {
      FoundIsDecided(st, m, seen, path);
    }
    if steps: nat :| Decides(steps, st, m, seen, path, kind) {
      DecidedIsFound(steps, st, m, seen, path, kind);
    }
  }
}
