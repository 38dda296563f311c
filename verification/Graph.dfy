/** Reachability along the edges of a finite graph, by explicit paths. */
module Graph {

  ghost predicate IsPath<T(!new)>(roots: set<T>, edges: set<(T, T)>, path: seq<T>, end: T) {
    && |path| > 0 && path[0] in roots && path[|path| - 1] == end
    && forall i :: 0 <= i < |path| - 1 ==> (path[i], path[i + 1]) in edges
  }

  ghost predicate Reach<T(!new)>(roots: set<T>, edges: set<(T, T)>, x: T) {
    exists path :: IsPath(roots, edges, path, x)
  }

  lemma ReachRoot<T(!new)>(roots: set<T>, edges: set<(T, T)>, x: T)
    requires x in roots
    ensures Reach(roots, edges, x)
  {
    assert IsPath(roots, edges, [x], x);
  }

  lemma ReachEdge<T(!new)>(roots: set<T>, edges: set<(T, T)>, x: T, y: T)
    requires Reach(roots, edges, x) && (x, y) in edges
    ensures Reach(roots, edges, y)
  {
    var path :| IsPath(roots, edges, path, x);
    assert IsPath(roots, edges, path + [y], y);
  }

  lemma ReachMore<T(!new)>(roots: set<T>, edges: set<(T, T)>, roots': set<T>, edges': set<(T, T)>, x: T)
    requires Reach(roots, edges, x) && roots <= roots' && edges <= edges'
    ensures Reach(roots', edges', x)
  {
    var path :| IsPath(roots, edges, path, x);
    assert IsPath(roots', edges', path, x);
  }

  /** A set that holds the roots and is closed under the edges holds all that is reachable. */
  lemma {:induction false} PathInside<T(!new)>(roots: set<T>, edges: set<(T, T)>, path: seq<T>, x: T, s: set<T>)
    requires IsPath(roots, edges, path, x) && roots <= s && forall e :: e in edges && e.0 in s ==> e.1 in s
    ensures x in s
    decreases |path|
  {
    if |path| > 1 {
      var n := |path| - 1;
      assert (path[n - 1], path[n - 1 + 1]) in edges;
      assert IsPath(roots, edges, path[..n], path[n - 1]);
      PathInside(roots, edges, path[..n], path[n - 1], s);
    }
  }
}
