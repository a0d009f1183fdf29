/** The check on the session's unit ordering: cycle search and reachability over `before` edges. */
module UnitOrder {
  import opened Optional

  type Unit = string

  type Graph = map<Unit, set<Unit>>

  /** A unit without an entry has no successors. */
  function Successors(g: Graph, n: Unit): (s: set<Unit>) { if n in g then g[n] else {} }

  function Units(g: Graph): (s: set<Unit>)
    ensures forall n, m :: n in g && m in g[n] ==> n in s && m in s
  {
    g.Keys + set n, m | n in g && m in g[n] :: m
  }

  predicate Walk(g: Graph, p: seq<Unit>) {
    p != [] && forall i :: 0 <= i < |p| - 1 ==> p[i + 1] in Successors(g, p[i])
  }

  /** A closed walk along real edges. */
  predicate Cycle(g: Graph, p: seq<Unit>) { Walk(g, p) && |p| > 1 && p[0] == p[|p| - 1] }

  ghost predicate Reaches(g: Graph, a: Unit, b: Unit) {
    exists p :: Walk(g, p) && p[0] == a && p[|p| - 1] == b
  }

  // ---- why a finished search leaves no cycle ---------------------------------------------

  /** Every successor of a unit stands before it. */
  predicate Finished(g: Graph, order: seq<Unit>) {
    forall i, s :: 0 <= i < |order| && s in Successors(g, order[i]) ==> s in order[..i]
  }

  /** Walks from the first `k` finished units have at most `k` units. */
  lemma {:induction false} WalksEnd(g: Graph, order: seq<Unit>, k: nat, p: seq<Unit>)
    requires Finished(g, order) && k <= |order| && Walk(g, p) && p[0] in order[..k]
    ensures |p| <= k
    decreases k
  {
    var i :| 0 <= i < k && order[..k][i] == p[0];
    if |p| > 1 {
      assert order[i] == p[0] && p[1] in Successors(g, order[i]);
      WalksEnd(g, order, i, p[1..]);
    }
  }

  lemma JoinWalks(g: Graph, a: seq<Unit>, b: seq<Unit>)
    requires Walk(g, a) && Walk(g, b) && a[|a| - 1] == b[0]
    ensures Walk(g, a[..|a| - 1] + b)
  {
    var k := |a| - 1;
    var q := a[..k] + b;
    forall i | 0 <= i < |q| - 1 ensures q[i + 1] in Successors(g, q[i]) {
      if i < k {
        assert q[i] == a[i] && q[i + 1] == a[i + 1];
      } else {
        assert q[i] == b[i - k] && q[i + 1] == b[i - k + 1];
      }
    }
  }

  /** Going round a cycle gives walks of any length. */
  lemma {:induction false} RoundAndRound(g: Graph, p: seq<Unit>, n: nat) returns (q: seq<Unit>)
    requires Cycle(g, p)
    ensures Walk(g, q) && q[0] == p[0] && |q| > n
    decreases n
  {
    q := p;
    if n >= |p| {
      var rest := RoundAndRound(g, p, n - 1);
      JoinWalks(g, p, rest);
      q := p[..|p| - 1] + rest;
    }
  }

  lemma NoCycleLeft(g: Graph, order: seq<Unit>, p: seq<Unit>)
    requires Finished(g, order) && (forall n :: n in g ==> n in order)
    ensures !Cycle(g, p)
  {
    if Cycle(g, p) {
      assert p[1] in Successors(g, p[0]);
      assert order[..|order|] == order;
      var q := RoundAndRound(g, p, |order|);
      WalksEnd(g, order, |order|, q);
    }
  }

  // ---- the search ------------------------------------------------------------------------------

  predicate NoRepeat(p: seq<Unit>) { forall i, j :: 0 <= i < j < |p| ==> p[i] != p[j] }

  ghost function Remaining(units: set<Unit>, path: seq<Unit>): (s: set<Unit>) { units - set n | n in path }

  lemma Narrows(units: set<Unit>, path: seq<Unit>, node: Unit)
    requires node in units && node !in path
    ensures |Remaining(units, path + [node])| < |Remaining(units, path)|
  {
    assert Remaining(units, path) == Remaining(units, path + [node]) + {node};
  }

  /** The units being visited form a path of distinct units, none of them finished. */
  predicate OnPath(g: Graph, path: seq<Unit>, visited: set<Unit>) {
    && (path == [] || Walk(g, path)) && NoRepeat(path)
    && forall n :: n in path ==> n !in visited && n in Units(g)
  }

  lemma PathGrows(g: Graph, path: seq<Unit>, visited: set<Unit>, node: Unit)
    requires OnPath(g, path, visited) && node in Units(g) && node !in path && node !in visited
    requires path != [] ==> node in Successors(g, path[|path| - 1])
    ensures OnPath(g, path + [node], visited)
  {}

  lemma PathShrinks(g: Graph, path: seq<Unit>, visited: set<Unit>)
    requires OnPath(g, path, visited) && path != []
    ensures OnPath(g, path[..|path| - 1], visited + {path[|path| - 1]})
  {}

  class Search {
    const edges: Graph
    var visiting: seq<Unit>
    var visited: set<Unit>
    ghost var order: seq<Unit>     // the visited units as they were finished

    constructor (edges: Graph)
      ensures this.edges == edges && Valid() && visiting == [] && visited == {}
    {
      this.edges := edges;
      visiting, visited, order := [], {}, [];
    }

    ghost predicate Valid()
      reads this
    {
      OnPath(edges, visiting, visited) && (forall n :: n in visited <==> n in order) && Finished(edges, order)
    }

    ghost function Unseen(): (s: set<Unit>)
      reads this
    {
      Remaining(Units(edges) - visited, visiting)
    }

    method IndexOf(node: Unit) returns (at: nat)
      requires node in visiting
      ensures at < |visiting| && visiting[at] == node
    {
      at := 0;
      while visiting[at] != node
        invariant at < |visiting| && node !in visiting[..at]
        decreases |visiting| - at
      {
        at := at + 1;
      }
    }

    lemma CloseCycle(node: Unit, at: nat)
      requires Valid() && at < |visiting| && visiting[at] == node
      requires node in Successors(edges, visiting[|visiting| - 1])
      ensures Cycle(edges, visiting[at..] + [node])
    {
      var p := visiting[at..] + [node];
      forall i | 0 <= i < |p| - 1 ensures p[i + 1] in Successors(edges, p[i]) {
        assert p[i] == visiting[at + i];
        assert i < |p| - 2 ==> p[i + 1] == visiting[at + i + 1];
      }
    }

    /** Returns a cycle, or leaves the unit visited and the path as it was. */
    method Visit(node: Unit) returns (found: Option<seq<Unit>>)
      requires Valid() && node in Units(edges)
      requires visiting != [] ==> node in Successors(edges, visiting[|visiting| - 1])
      modifies this
      ensures found.Some? ==> Cycle(edges, found.value)
      ensures found.None? ==> Valid() && visiting == old(visiting) && old(visited) <= visited && node in visited
      decreases |Unseen()|, 1
    {
      if node in visiting {
        var start := IndexOf(node);
        CloseCycle(node, start);
        return Some(visiting[start..] + [node]);
      }
      if node in visited {
        return None;
      }
      found := Explore(node);
    }

    method Explore(node: Unit) returns (found: Option<seq<Unit>>)
      requires Valid() && node in Units(edges) && node !in visiting && node !in visited
      requires visiting != [] ==> node in Successors(edges, visiting[|visiting| - 1])
      modifies this
      ensures found.Some? ==> Cycle(edges, found.value)
      ensures found.None? ==> Valid() && visiting == old(visiting) && old(visited) <= visited && node in visited
      decreases |Unseen()|, 0
    {
      Enter(node);
      found := VisitSuccessors(node);
      if found.None? {
        Leave(node);
      }
    }

    method Enter(node: Unit)
      requires Valid() && node in Units(edges) && node !in visiting && node !in visited
      requires visiting != [] ==> node in Successors(edges, visiting[|visiting| - 1])
      modifies this
      ensures Valid() && visiting == old(visiting) + [node] && visited == old(visited)
      ensures |Unseen()| < |old(Unseen())|
    {
      Narrows(Units(edges) - visited, visiting, node);
      PathGrows(edges, visiting, visited, node);
      visiting := visiting + [node];
    }

    method Leave(node: Unit)
      requires Valid() && visiting != [] && visiting[|visiting| - 1] == node
      requires Successors(edges, node) <= visited
      modifies this
      ensures Valid() && visiting == old(visiting)[..|old(visiting)| - 1] && visited == old(visited) + {node}
    {
      PathShrinks(edges, visiting, visited);
      visiting := visiting[..|visiting| - 1];
      visited := visited + {node};
      order := order + [node];
      assert order[..|order| - 1] == old(order);
    }

    /** The successors in any order: the result does not depend on it. */
    method VisitSuccessors(node: Unit) returns (found: Option<seq<Unit>>)
      requires Valid() && visiting != [] && visiting[|visiting| - 1] == node
      modifies this
      ensures found.Some? ==> Cycle(edges, found.value)
      ensures found.None? ==>
                && Valid() && visiting == old(visiting) && old(visited) <= visited
                && Successors(edges, node) <= visited
      decreases |Unseen()|, 2
    {
      var todo := Successors(edges, node);
      found := None;
      while todo != {}
        invariant Valid() && visiting == old(visiting) && old(visited) <= visited && found.None?
        invariant todo <= Successors(edges, node) && Successors(edges, node) - todo <= visited
        decreases todo
      {
        var successor :| successor in todo;
        Shrinks(old(Unseen()), Unseen());
        found := Visit(successor);
        if found.Some? {
          return;
        }
        todo := todo - {successor};
      }
    }
  }

  lemma Shrinks(a: set<Unit>, b: set<Unit>)
    requires b <= a
    ensures |b| <= |a|
  {
    assert a == b + (a - b);
  }

  /** Finds a cycle exactly when there is one. */
  method FindCycle(edges: Graph) returns (found: Option<seq<Unit>>)
    ensures found.Some? ==> Cycle(edges, found.value)
    ensures found.None? <==> forall p :: !Cycle(edges, p)
  {
    var search := new Search(edges);
    var todo := edges.Keys;
    while todo != {}
      invariant fresh(search) && search.edges == edges && search.Valid() && search.visiting == []
      invariant todo <= edges.Keys && edges.Keys - todo <= search.visited
      decreases todo
    {
      var node :| node in todo;
      found := search.Visit(node);
      if found.Some? {
        return;
      }
      todo := todo - {node};
    }
    forall p ensures !Cycle(edges, p) {
      NoCycleLeft(edges, search.order, p);
    }
    return None;
  }

  // ---- reachability --------------------------------------------------------------------------------

  lemma ReachesSelf(g: Graph, a: Unit)
    ensures Reaches(g, a, a)
  {
    assert Walk(g, [a]);
  }

  lemma ReachesNext(g: Graph, a: Unit, b: Unit, c: Unit)
    requires Reaches(g, a, b) && c in Successors(g, b)
    ensures Reaches(g, a, c)
  {
    var p :| Walk(g, p) && p[0] == a && p[|p| - 1] == b;
    var q := p + [c];
    assert Walk(g, q);
  }

  /** A walk cannot leave a set that holds all its successors. */
  lemma {:induction false} WalkStays(g: Graph, seen: set<Unit>, p: seq<Unit>)
    requires Walk(g, p) && p[0] in seen && forall n :: n in seen ==> Successors(g, n) <= seen
    ensures p[|p| - 1] in seen
  {
    if |p| > 1 {
      WalkStays(g, seen, p[..|p| - 1]);
    }
  }

  /** The elements of a set in some order. */
  method Listed(s: set<Unit>) returns (q: seq<Unit>)
    ensures forall n :: n in q <==> n in s
  {
    var todo := s;
    q := [];
    while todo != {}
      invariant todo <= s && forall n :: n in q <==> n in s - todo
      decreases todo
    {
      var n :| n in todo;
      q, todo := q + [n], todo - {n};
    }
  }

  /** Everything listed or seen can be reached, and what was seen has its successors listed or seen. */
  ghost predicate Explored(g: Graph, start: Unit, pending: seq<Unit>, seen: set<Unit>) {
    && (start in pending || start in seen)
    && (forall n :: n in pending || n in seen ==> Reaches(g, start, n) && n in Units(g) + {start})
    && (forall n, s :: n in seen && s in Successors(g, n) ==> s in pending || s in seen)
  }

  lemma Expand(g: Graph, start: Unit, pending: seq<Unit>, seen: set<Unit>, more: seq<Unit>)
    requires pending != [] && Explored(g, start, pending, seen)
    requires forall n :: n in more <==> n in Successors(g, pending[|pending| - 1])
    ensures Explored(g, start, pending[..|pending| - 1] + more, seen + {pending[|pending| - 1]})
  {
    var k := |pending| - 1;
    assert pending == pending[..k] + [pending[k]];
    forall n | n in more ensures Reaches(g, start, n) {
      ReachesNext(g, start, pending[k], n);
    }
  }

  lemma Skip(g: Graph, start: Unit, pending: seq<Unit>, seen: set<Unit>)
    requires pending != [] && Explored(g, start, pending, seen) && pending[|pending| - 1] in seen
    ensures Explored(g, start, pending[..|pending| - 1], seen)
  {
    var k := |pending| - 1;
    assert pending == pending[..k] + [pending[k]];
  }

  lemma Exhausted(g: Graph, start: Unit, seen: set<Unit>, finish: Unit)
    requires Explored(g, start, [], seen) && finish !in seen
    ensures !Reaches(g, start, finish)
  {
    if Reaches(g, start, finish) {
      var p :| Walk(g, p) && p[0] == start && p[|p| - 1] == finish;
      WalkStays(g, seen, p);
    }
  }

  /** True exactly when some walk leads from `start` to `finish`. */
  method Reachable(edges: Graph, start: Unit, finish: Unit) returns (found: bool)
    ensures found <==> Reaches(edges, start, finish)
  {
    var pending, seen := [start], {};
    ReachesSelf(edges, start);
    while pending != []
      invariant Explored(edges, start, pending, seen) && finish !in seen
      decreases Units(edges) + {start} - seen, |pending|
    {
      var node := pending[|pending| - 1];
      if node == finish {
        return true;
      }
      if node in seen {
        Skip(edges, start, pending, seen);
        pending := pending[..|pending| - 1];
      } else {
        var more := Listed(Successors(edges, node));
        Expand(edges, start, pending, seen, more);
        pending, seen := pending[..|pending| - 1] + more, seen + {node};
      }
    }
    Exhausted(edges, start, seen, finish);
    return false;
  }
}
