/** Small vocabulary shared by every model: optional values, results, and a few
    facts about sequences that the ledger and the stores both rely on. */
module Prelude {
  datatype Option<+T> = None | Some(value: T)

  datatype Result<+T, +E> = Ok(value: T) | Err(error: E)

  /** The value, or what stands in for it. */
  function Or<T>(found: Option<T>, otherwise: T): T {
    if found.Some? then found.value else otherwise
  }

  predicate NoDuplicates<T(==)>(s: seq<T>) {
    forall i, j | 0 <= i < j < |s| :: s[i] != s[j]
  }

  /** The rows of `current` that `base` does not hold, in order. */
  function NewRows<T(==,!new)>(base: seq<T>, current: seq<T>): (added: seq<T>)
    ensures forall x :: x in added <==> x in current && x !in base
  {
    if current == [] then []
    else
      var rest := NewRows(base, current[..|current| - 1]);
      var last := current[|current| - 1];
      assert current == current[..|current| - 1] + [last];
      if last in base then rest else rest + [last]
  }

  lemma PrefixMember<T>(p: seq<T>, s: seq<T>, x: T)
    requires p <= s && x in p
    ensures x in s
  {
    var i :| 0 <= i < |p| && p[i] == x;
    assert s[i] == x;
  }

  /** Two prefixes of one sequence are comparable. */
  lemma PrefixesComparable<T>(p: seq<T>, q: seq<T>, s: seq<T>)
    requires p <= s && q <= s
    ensures if |p| <= |q| then p <= q else q <= p
  {
  }

  /** A duplicate-free sequence drawn from another is no longer than it. */
  lemma DrawnIsNoLonger<T>(p: seq<T>, s: seq<T>)
    requires NoDuplicates(p)
    requires forall x | x in p :: x in s
    ensures |p| <= |s|
  {
    var ps := set x | x in p;
    var ss := set x | x in s;
    SizeOfElements(p);
    ElementsBounded(s);
    SubsetSize(ps, ss);
  }

  lemma SizeOfElements<T>(p: seq<T>)
    requires NoDuplicates(p)
    ensures |set x | x in p| == |p|
  {
    if p != [] {
      var init, last := p[..|p| - 1], p[|p| - 1];
      SizeOfElements(init);
      assert p == init + [last];
      assert (set x | x in p) == (set x | x in init) + {last};
    }
  }

  lemma ElementsBounded<T>(s: seq<T>)
    ensures |set x | x in s| <= |s|
  {
    if s != [] {
      var init, last := s[..|s| - 1], s[|s| - 1];
      ElementsBounded(init);
      assert s == init + [last];
      assert (set x | x in s) == (set x | x in init) + {last};
    }
  }

  lemma SubsetSize<T>(a: set<T>, b: set<T>)
    requires a <= b
    ensures |a| <= |b|
  {
    assert b == a + (b - a);
  }
}
