/** The depth-first search for a dependency cycle, with the two collections it
    updates in place: the stack of GAPs being visited and the set of GAPs that
    are finished. */
module DependencyCycle {
  import opened Prelude
  import opened RoadmapModel
  import opened RoadmapRules

  /** Finished GAPs: closed under known dependencies, and no cycle starts there. */
  ghost predicate Finished(index: map<Id, Gap>, visited: set<Id>) {
    && visited <= index.Keys
    && (forall id, d | id in visited && d in index[id].dependencies && d in index :: d in visited)
    && (forall path | IsCycle(index, path) :: path[0] !in visited)
  }

  lemma {:induction false} WalkStaysFinished(index: map<Id, Gap>, visited: set<Id>, path: seq<Id>, i: nat, j: nat)
    requires Finished(index, visited) && IsPath(index, path)
    requires i <= j < |path| && path[i] in visited
    ensures path[j] in visited
    decreases j
  {
    if i < j {
      WalkStaysFinished(index, visited, path, i, j - 1);
    }
  }

  /** A GAP whose known dependencies are all finished is finished too. */
  lemma FinishOne(index: map<Id, Gap>, visited: set<Id>, id: Id)
    requires Finished(index, visited) && id in index && id !in visited
    requires forall d | d in index[id].dependencies && d in index :: d in visited
    ensures Finished(index, visited + {id})
  {
    forall path | IsCycle(index, path)
      ensures path[0] !in visited + {id}
    {
      if path[0] == id {
        assert path[1] in index[path[0]].dependencies;
        WalkStaysFinished(index, visited, path, 1, |path| - 1);
        assert false;
      }
    }
  }

  /** A stack whose top depends on `id`, cut at `id`, is a cycle. */
  lemma ClosingEdge(index: map<Id, Gap>, visiting: seq<Id>, start: nat, id: Id)
    requires IsPath(index, visiting) && start < |visiting| && visiting[start] == id
    requires id in index[visiting[|visiting| - 1]].dependencies
    ensures IsCycle(index, visiting[start..] + [id])
  {
    var path := visiting[start..] + [id];
    forall i | 0 < i < |path|
      ensures path[i] in index[path[i - 1]].dependencies
    {
      if i < |path| - 1 {
        assert path[i] == visiting[start + i] && path[i - 1] == visiting[start + i - 1];
      }
    }
  }

  lemma Pushed(index: map<Id, Gap>, visiting: seq<Id>, id: Id)
    requires IsPath(index, visiting) && NoDuplicates(visiting) && id !in visiting && id in index
    requires visiting != [] ==> id in index[visiting[|visiting| - 1]].dependencies
    ensures IsPath(index, visiting + [id]) && NoDuplicates(visiting + [id])
    ensures Elements(visiting + [id]) == Elements(visiting) + {id}
    ensures forall k :: k in visiting + [id] <==> k in visiting || k == id
  {
  }

  class CycleSearch {
    const index: map<Id, Gap>
    var visiting: seq<Id>
    var visited: set<Id>

    ghost predicate Valid()
      reads this
    {
      && IsPath(index, visiting)
      && NoDuplicates(visiting)
      && Finished(index, visited)
      && (forall id | id in visiting :: id !in visited)
    }

    constructor (index: map<Id, Gap>)
      ensures Valid() && this.index == index && visiting == [] && visited == {}
    {
      this.index := index;
      visiting, visited := [], {};
    }

    /** `visiting.index(id)`: the first position of `id` on the stack. */
    method Position(id: Id) returns (start: nat)
      requires id in visiting
      ensures start < |visiting| && visiting[start] == id && id !in visiting[..start]
    {
      start := 0;
      while visiting[start] != id
        invariant start < |visiting| && id !in visiting[..start]
        decreases |visiting| - start
      {
        start := start + 1;
      }
    }

    /** Either a cycle, or the search is back where it was with `id` finished. */
    method Visit(id: Id) returns (cycle: Option<seq<Id>>)
      requires Valid() && id in index
      requires visiting != [] ==> id in index[visiting[|visiting| - 1]].dependencies
      modifies this
      ensures cycle.Some? ==> IsCycle(index, cycle.value)
      ensures cycle.None? ==> Valid() && visiting == old(visiting) && old(visited) + {id} <= visited
      decreases index.Keys - Elements(visiting)
    {
      if id in visiting {
        var start := Position(id);
        ClosingEdge(index, visiting, start, id);
        return Some(visiting[start..] + [id]);
      }
      if id in visited {
        return None;
      }
      ghost var stack := visiting;
      Pushed(index, stack, id);
      visiting := visiting + [id];
      hide IsPath, NoDuplicates, Finished, Elements;
      var dependencies := index[id].dependencies;
      for i := 0 to |dependencies|
        invariant Valid() && visiting == stack + [id]
        invariant old(visited) <= visited
        invariant forall d | d in dependencies[..i] && d in index :: d in visited
      {
        if dependencies[i] in index {
          cycle := Visit(dependencies[i]);
          if cycle.Some? {
            return;
          }
        }
        assert dependencies[..i + 1] == dependencies[..i] + [dependencies[i]];
      }
      assert dependencies[..|dependencies|] == dependencies;
      visiting := visiting[..|visiting| - 1];
      assert visiting == stack;
      FinishOne(index, visited, id);
      visited := visited + {id};
      cycle := None;
    }
  }

  /** `_dependency_cycle`, for any order in which the roots are tried. */
  method FindDependencyCycle(index: map<Id, Gap>, roots: seq<Id>) returns (cycle: Option<seq<Id>>)
    requires forall id :: id in roots <==> id in index
    ensures cycle.None? <==> Acyclic(index)
    ensures cycle.Some? ==> IsCycle(index, cycle.value)
  {
    var search := new CycleSearch(index);
    for i := 0 to |roots|
      invariant search.Valid() && search.index == index && search.visiting == []
      invariant forall j | 0 <= j < i :: roots[j] in search.visited
    {
      cycle := search.Visit(roots[i]);
      if cycle.Some? {
        return;
      }
    }
    cycle := None;
    assert forall id | id in index :: id in roots;
    assert index.Keys <= search.visited;
  }
}
