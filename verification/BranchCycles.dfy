/**
 Catalog tables whose scan branches are other catalog tables.

 A table's branches are resolved lazily, once, and possibly concurrently with
 those of other tables. A depth-first search over the branches resolved so far
 guards both the resolution and the recursive scan.
 */
module BranchCycles {
  import opened Wrappers

  /** A catalog table, or any other source of rows. */
  datatype Provider = Catalog(id: nat) | Foreign(name: nat)

  /** The branches resolved so far; `None` for a table that needs no union. */
  type Graph = map<nat, Option<seq<Provider>>>

  datatype ScanError = SelfReference | Cycle(path: seq<nat>) | Unresolvable

  predicate Edge(g: Graph, u: nat, p: Provider) {
    u in g && g[u].Some? && p in g[u].value
  }

  /** Resolved branches are never changed or forgotten. */
  predicate Grows(g: Graph, g': Graph) {
    forall u :: u in g ==> u in g' && g'[u] == g[u]
  }

  /** Tables each of which has the next one as a branch. */
  ghost predicate IsChain(g: Graph, chain: seq<nat>) {
    forall i :: 0 <= i < |chain| - 1 ==> Edge(g, chain[i], Catalog(chain[i + 1]))
  }

  ghost predicate LeadsTo(g: Graph, p: Provider, target: nat, chain: seq<nat>) {
    p.Catalog? && chain != [] && chain[0] == p.id && chain[|chain| - 1] == target && IsChain(g, chain)
  }

  ghost predicate Reachable(g: Graph, p: Provider, target: nat) {
    exists chain :: LeadsTo(g, p, target, chain)
  }

  /** Every catalog branch of a table in `done` is in `seen`. */
  ghost predicate ClosedIn(g: Graph, done: set<nat>, seen: set<nat>) {
    forall u, v :: u in done && Edge(g, u, Catalog(v)) ==> v in seen
  }

  // A set that is closed under branches cannot be left along a chain.
  lemma {:induction false} ChainStaysInside(g: Graph, seen: set<nat>, chain: seq<nat>)
    requires ClosedIn(g, seen, seen) && IsChain(g, chain) && chain != [] && chain[0] in seen
    ensures chain[|chain| - 1] in seen
    decreases |chain|
  {
    if |chain| > 1 {
      assert Edge(g, chain[0], Catalog(chain[1]));
      forall i | 0 <= i < |chain[1..]| - 1
        ensures Edge(g, chain[1..][i], Catalog(chain[1..][i + 1]))
      {
        assert Edge(g, chain[i + 1], Catalog(chain[i + 2]));
      }
      ChainStaysInside(g, seen, chain[1..]);
    }
  }

  lemma ChainExtends(g: Graph, u: nat, chain: seq<nat>)
    requires IsChain(g, chain) && chain != [] && Edge(g, u, Catalog(chain[0]))
    ensures IsChain(g, [u] + chain)
  {
  }

  lemma ChainGrows(g: Graph, g': Graph, chain: seq<nat>)
    requires IsChain(g, chain) && Grows(g, g')
    ensures IsChain(g', chain)
  {
  }

  // ---------------------------------------------------------------------
  // The search

  class Search {
    var visited: set<nat>
    var path: seq<nat>

    constructor (self: nat)
      ensures visited == {} && path == [self]
    {
      visited := {};
      path := [self];
    }

    /** Whether `target` is reached; then `path` was extended by a chain to it. */
    method Reaches(g: Graph, p: Provider, target: nat) returns (found: bool)
      modifies this
      ensures old(visited) <= visited
      ensures found ==> old(path) < path && LeadsTo(g, p, target, path[|old(path)|..])
      ensures !found ==> path == old(path) && target !in visited - old(visited)
      ensures !found ==> (p.Catalog? ==> p.id in visited) && ClosedIn(g, visited - old(visited), visited)
      decreases g.Keys - visited, 1
    {
      if p.Foreign? || p.id in visited {
        return false;
      }
      visited := visited + {p.id};
      path := path + [p.id];
      if p.id == target {
        assert path[|old(path)|..] == [p.id];
        return true;
      }
      if p.id in g && g[p.id].Some? {
        found := AnyReaches(g, p.id, g[p.id].value, target, old(visited), old(path));
        if found {
          return true;
        }
      }
      path := path[..|path| - 1];
      assert path == old(path);
      found := false;
    }

    /** Try the branches of the table `u`, which was just entered. */
    method AnyReaches(g: Graph, u: nat, branches: seq<Provider>, target: nat, ghost before: set<nat>, ghost prefix: seq<nat>)
      returns (found: bool)
      requires u in g && g[u] == Some(branches) && u != target && u !in before
      requires visited == before + {u} && path == prefix + [u]
      modifies this
      ensures old(visited) <= visited
      ensures found ==> prefix < path && LeadsTo(g, Catalog(u), target, path[|prefix|..])
      ensures !found ==> path == old(path) && target !in visited - before
      ensures !found ==> ClosedIn(g, visited - before, visited)
      decreases g.Keys - before, 0
    {
      ghost var entered := visited;
      for i := 0 to |branches|
        invariant entered <= visited && path == old(path)
        invariant target !in visited - before
        invariant ClosedIn(g, visited - entered, visited)
        invariant forall j :: 0 <= j < i && branches[j].Catalog? ==> branches[j].id in visited
      {
        ghost var seen := visited;
        var hit := Reaches(g, branches[i], target);
        if hit {
          var chain := path[|old(path)|..];
          assert Edge(g, u, branches[i]);
          ChainExtends(g, u, chain);
          assert path[|prefix|..] == [u] + chain;
          return true;
        }
        assert visited - entered == (visited - seen) + (seen - entered);
      }
      forall v | Edge(g, u, Catalog(v))
        ensures v in visited
      {
        var j :| 0 <= j < |branches| && branches[j] == Catalog(v);
      }
      assert visited - before == (visited - entered) + {u};
      found := false;
    }
  }

  /** The cycle that the source `p` would close through `self`, found over the resolved branches. */
  method SourceCycle(g: Graph, self: nat, p: Provider) returns (cycle: Option<seq<nat>>)
    ensures cycle.Some? <==> Reachable(g, p, self)
    ensures cycle.Some? ==> |cycle.value| >= 2 && cycle.value[0] == self && LeadsTo(g, p, self, cycle.value[1..])
  {
    var search := new Search(self);
    var found := search.Reaches(g, p, self);
    if found {
      assert LeadsTo(g, p, self, search.path[1..]);
      cycle := Some(search.path);
    } else {
      assert search.visited - {} == search.visited;
      forall chain | p.Catalog? && chain != [] && chain[0] == p.id && IsChain(g, chain)
        ensures chain[|chain| - 1] != self
      {
        ChainStaysInside(g, search.visited, chain);
      }
      cycle := None;
    }
  }

  // ---------------------------------------------------------------------
  // Resolving and scanning

  /** The scan plan: a single source, or the union of a table's branches. */
  datatype Plan = Single(source: Provider) | Union(id: nat, inputs: seq<Plan>)

  /** The plan reads exactly the branches, recursively and in order. */
  ghost predicate Unfolds(plan: Plan, p: Provider, g: Graph)
    decreases plan
  {
    match plan
    case Single(source) => source == p && (p.Catalog? ==> p.id in g && g[p.id].None?)
    case Union(id, inputs) =>
      && p == Catalog(id) && id in g && g[id].Some? && |inputs| == |g[id].value|
      && forall i :: 0 <= i < |inputs| ==> Unfolds(inputs[i], g[id].value[i], g)
  }

  /** A finite plan for the provider exists. */
  ghost predicate Scannable(g: Graph, p: Provider) {
    exists plan :: Unfolds(plan, p, g)
  }

  lemma {:induction false} UnfoldingIsUnique(a: Plan, b: Plan, p: Provider, g: Graph)
    requires Unfolds(a, p, g) && Unfolds(b, p, g)
    ensures a == b
    decreases a
  {
    if a.Union? {
      forall i | 0 <= i < |a.inputs|
        ensures a.inputs[i] == b.inputs[i]
      {
        UnfoldingIsUnique(a.inputs[i], b.inputs[i], g[a.id].value[i], g);
      }
      assert a.inputs == b.inputs;
    }
  }

  /** `part` occurs in `whole`, `depth` levels down. */
  ghost predicate IsPart(part: Plan, whole: Plan, depth: nat)
    decreases depth
  {
    if depth == 0 then
      part == whole
    else
      whole.Union? && exists i :: 0 <= i < |whole.inputs| && IsPart(part, whole.inputs[i], depth - 1)
  }

  lemma {:induction false} NoProperPartIsTheWhole(part: Plan, whole: Plan, depth: nat)
    requires depth > 0 && IsPart(part, whole, depth)
    ensures part < whole
    decreases depth
  {
    var i :| 0 <= i < |whole.inputs| && IsPart(part, whole.inputs[i], depth - 1);
    assert whole.inputs[i] < whole;
    if depth > 1 {
      NoProperPartIsTheWhole(part, whole.inputs[i], depth - 1);
    }
  }

  // The plan of a table holds a plan of every table that a chain leads to.
  lemma {:induction false} ChainDescends(g: Graph, p: Provider, target: nat, chain: seq<nat>, plan: Plan) returns (part: Plan)
    requires LeadsTo(g, p, target, chain) && Unfolds(plan, p, g)
    ensures Unfolds(part, Catalog(target), g) && IsPart(part, plan, |chain| - 1)
    decreases |chain|
  {
    if |chain| == 1 {
      return plan;
    }
    assert Edge(g, chain[0], Catalog(chain[1]));
    var list := g[chain[0]].value;
    var i :| 0 <= i < |list| && list[i] == Catalog(chain[1]);
    forall k | 0 <= k < |chain[1..]| - 1
      ensures Edge(g, chain[1..][k], Catalog(chain[1..][k + 1]))
    {
      assert Edge(g, chain[k + 1], Catalog(chain[k + 2]));
    }
    part := ChainDescends(g, list[i], target, chain[1..], plan.inputs[i]);
  }

  // A table that one of its own branches leads back to has no finite plan.
  lemma CyclesAreUnscannable(g: Graph, self: nat, p: Provider)
    requires Edge(g, self, p) && Reachable(g, p, self)
    ensures !Scannable(g, Catalog(self))
  {
    var chain :| LeadsTo(g, p, self, chain);
    ChainExtends(g, self, chain);
    assert LeadsTo(g, Catalog(self), self, [self] + chain);
    forall plan | Unfolds(plan, Catalog(self), g)
      ensures false
    {
      var part := ChainDescends(g, Catalog(self), self, [self] + chain, plan);
      UnfoldingIsUnique(part, plan, Catalog(self), g);
      NoProperPartIsTheWhole(part, plan, |chain|);
    }
  }

  lemma BranchesMustBeScannable(g: Graph, u: nat, p: Provider)
    requires Edge(g, u, p) && Scannable(g, Catalog(u))
    ensures Scannable(g, p)
  {
    var plan :| Unfolds(plan, Catalog(u), g);
    var i :| 0 <= i < |g[u].value| && g[u].value[i] == p;
    assert Unfolds(plan.inputs[i], p, g);
  }

  /** Each stack entry is a branch of the one before, and none occurs twice. */
  ghost predicate IsStack(g: Graph, stack: seq<nat>) {
    IsChain(g, stack) && forall i, j :: 0 <= i < j < |stack| ==> stack[i] != stack[j]
  }

  /** The provider scanned next is a branch of the innermost table and not on the stack. */
  ghost predicate Entered(g: Graph, stack: seq<nat>, p: Provider) {
    && IsStack(g, stack)
    && (stack != [] ==> Edge(g, stack[|stack| - 1], p))
    && (p.Catalog? ==> p.id !in stack)
  }

  // A branch that leads back to a table on the stack is caught by the search.
  lemma {:induction false} ReentryIsACycle(g: Graph, stack: seq<nat>, p: Provider)
    requires IsStack(g, stack) && stack != [] && p.Catalog? && p.id in stack
    ensures Reachable(g, p, stack[|stack| - 1])
  {
    var j :| 0 <= j < |stack| && stack[j] == p.id;
    var chain := stack[j..];
    forall i | 0 <= i < |chain| - 1
      ensures Edge(g, chain[i], Catalog(chain[i + 1]))
    {
      assert Edge(g, stack[j + i], Catalog(stack[j + i + 1]));
    }
    assert LeadsTo(g, p, stack[|stack| - 1], chain);
  }

  lemma PushKeepsStack(g: Graph, g': Graph, stack: seq<nat>, p: Provider)
    requires Entered(g, stack, p) && Grows(g, g') && p.Catalog?
    ensures IsStack(g', stack + [p.id])
  {
  }

  lemma PushUsesUpATable(tables: set<nat>, stack: seq<nat>, id: nat)
    requires id in tables && forall i, j :: 0 <= i < j < |stack + [id]| ==> (stack + [id])[i] != (stack + [id])[j]
    ensures tables - (set u | u in stack + [id]) < tables - (set u | u in stack)
  {
    var inner := stack + [id];
    forall u | u in stack
      ensures u != id
    {
      var i :| 0 <= i < |stack| && stack[i] == u;
      assert inner[i] != inner[|stack|];
    }
    var rest, smaller := tables - (set u | u in stack), tables - (set u | u in inner);
    assert inner[|stack|] == id;
    assert id in rest && id !in smaller;
    assert forall u :: u in stack ==> u in inner;
  }

  lemma ReachableGrows(g: Graph, g': Graph, p: Provider, target: nat)
    requires Grows(g, g') && Reachable(g, p, target)
    ensures Reachable(g', p, target)
  {
    var chain :| LeadsTo(g, p, target, chain);
    ChainGrows(g, g', chain);
    assert LeadsTo(g', p, target, chain);
  }

  class Catalogs {
    /** What the workers declare as the branches of each table. */
    const declared: Graph
    var branches: Graph

    ghost predicate Valid()
      reads this
    {
      Grows(branches, declared)
    }

    constructor (declared: Graph)
      ensures Valid() && this.declared == declared && branches == map[]
    {
      this.declared := declared;
      branches := map[];
    }

    /** Other sessions may resolve further tables at any time. */
    method Interfere()
      requires Valid()
      modifies this
      ensures Valid() && Grows(old(branches), branches)
    {
      var g: Graph :| Grows(branches, g) && Grows(g, declared);
      branches := g;
    }

    /** The bind-time check of one source. */
    method BindSource(self: nat, p: Provider) returns (r: Result<Provider, ScanError>)
      requires Valid()
      ensures r.Err? <==> Reachable(branches, p, self)
      ensures r.Ok? ==> r.value == p
      ensures r == Err(SelfReference) <==> p == Catalog(self)
      ensures r.Err? && r.error.Cycle? ==>
        |r.error.path| >= 2 && r.error.path[0] == self && LeadsTo(branches, p, self, r.error.path[1..])
      ensures r.Err? ==> Reachable(declared, p, self)
    {
      if p == Catalog(self) {
        assert LeadsTo(branches, p, self, [self]);
        assert LeadsTo(declared, p, self, [self]);
        return Err(SelfReference);
      }
      var cycle := SourceCycle(branches, self, p);
      if cycle.Some? {
        ReachableGrows(branches, declared, p, self);
        return Err(Cycle(cycle.value));
      }
      r := Ok(p);
    }

    /** Resolve a table's branches unless that has already happened. */
    method MultiBranches(self: nat) returns (r: Result<Option<seq<Provider>>, ScanError>)
      requires Valid()
      modifies this
      ensures Valid() && Grows(old(branches), branches)
      ensures r.Ok? ==> self in branches && branches[self] == r.value == declared[self]
      ensures r.Err? ==> self !in old(branches) && !Scannable(declared, Catalog(self))
    {
      if self in branches {
        return Ok(branches[self]);
      }
      if self !in declared {
        return Err(Unresolvable);
      }
      var sources := declared[self];
      if sources.Some? {
        for i := 0 to |sources.value|
          invariant Valid() && Grows(old(branches), branches)
        {
          Interfere();
          var bound := BindSource(self, sources.value[i]);
          if bound.Err? {
            CyclesAreUnscannable(declared, self, sources.value[i]);
            return Err(bound.error);
          }
        }
      }
      Interfere();
      if self !in branches {
        branches := branches[self := sources];
      }
      r := Ok(branches[self]);
    }

    /**
     Scan a provider below the tables on `stack`. That the recursion terminates is
     part of what is verified: every table entered is new on the stack.
     */
    method Scan(p: Provider, ghost stack: seq<nat>) returns (r: Result<Plan, ScanError>)
      requires Valid() && Entered(branches, stack, p)
      modifies this
      ensures Valid() && Grows(old(branches), branches)
      ensures r.Ok? ==> Unfolds(r.value, p, declared)
      ensures r.Ok? <==> Scannable(declared, p)
      decreases declared.Keys - (set id | id in stack)
    {
      if p.Foreign? {
        assert Unfolds(Single(p), p, declared);
        return Ok(Single(p));
      }
      var resolved := MultiBranches(p.id);
      if resolved.Err? {
        return Err(resolved.error);
      }
      if resolved.value.None? {
        assert Unfolds(Single(p), p, declared);
        return Ok(Single(p));
      }
      PushKeepsStack(old(branches), branches, stack, p);
      r := ScanBranches(p.id, resolved.value.value, stack);
    }

    method ScanBranches(self: nat, list: seq<Provider>, ghost stack: seq<nat>) returns (r: Result<Plan, ScanError>)
      requires Valid() && IsStack(branches, stack + [self])
      requires self in branches && branches[self] == Some(list)
      modifies this
      ensures Valid() && Grows(old(branches), branches)
      ensures r.Ok? ==> Unfolds(r.value, Catalog(self), declared)
      ensures r.Ok? <==> Scannable(declared, Catalog(self))
      decreases declared.Keys - (set id | id in stack), 0
    {
      var inputs: seq<Plan> := [];
      ghost var inner := stack + [self];
      PushUsesUpATable(declared.Keys, stack, self);
      for i := 0 to |list|
        invariant Valid() && Grows(old(branches), branches)
        invariant IsStack(branches, inner)
        invariant |inputs| == i && forall j :: 0 <= j < i ==> Unfolds(inputs[j], list[j], declared)
      {
        ghost var g := branches;
        assert Edge(g, self, list[i]) && Edge(declared, self, list[i]);
        var cycle := SourceCycle(branches, self, list[i]);
        if cycle.Some? {
          ReachableGrows(g, declared, list[i], self);
          CyclesAreUnscannable(declared, self, list[i]);
          return Err(Cycle(cycle.value));
        }
        if list[i].Catalog? && list[i].id in inner {
          ReentryIsACycle(branches, inner, list[i]);
        }
        Interfere();
        ChainGrows(g, branches, inner);
        var input := Scan(list[i], inner);
        if input.Err? {
          if Scannable(declared, Catalog(self)) {
            BranchesMustBeScannable(declared, self, list[i]);
          }
          return Err(input.error);
        }
        ChainGrows(g, branches, inner);
        inputs := inputs + [input.value];
      }
      r := Ok(Union(self, inputs));
      assert Unfolds(r.value, Catalog(self), declared);
    }
  }

  // The bind-time check alone is not enough: two tables that name each other can
  // both pass it while neither is resolved, and close a cycle.
  lemma ConcurrentBindsCanCloseACycle()
    ensures !Reachable(map[], Catalog(1), 0) && !Reachable(map[], Catalog(0), 1)
    ensures var g: Graph := map[0 := Some([Catalog(1)]), 1 := Some([Catalog(0)])];
      Reachable(g, Catalog(1), 0) && Reachable(g, Catalog(0), 1)
  {
    forall p: Provider, target: nat, chain | p.Catalog? && p.id != target
      ensures !LeadsTo(map[], p, target, chain)
    {
      if |chain| >= 2 {
        assert !Edge(map[], chain[0], Catalog(chain[1]));
      }
    }
    var g: Graph := map[0 := Some([Catalog(1)]), 1 := Some([Catalog(0)])];
    assert Edge(g, 1, Catalog(0)) && Edge(g, 0, Catalog(1));
    assert LeadsTo(g, Catalog(1), 0, [1, 0]);
    assert LeadsTo(g, Catalog(0), 1, [0, 1]);
  }
}
