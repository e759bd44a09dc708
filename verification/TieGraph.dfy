/** Walks over a graph of tied loggers: what `Logger::emit` and `Logger::flush` of src/logger.cpp
    visit, against the simple paths of the graph. */
module TieGraphs {

  type Graph<T> = map<T, seq<T>>

  ghost predicate NoDuplicates<T>(s: seq<T>) {
    forall i, j :: 0 <= i < j < |s| ==> s[i] != s[j]
  }

  /** Every tie leads to a node of the graph, and no node is tied twice to the same one. */
  ghost predicate Closed<T>(g: Graph<T>) {
    forall n <- g :: NoDuplicates(g[n]) && forall m <- g[n] :: m in g
  }

  ghost function Seen<T>(p: seq<T>): set<T> {
    set x | x in p
  }

  /** p follows ties. */
  ghost predicate IsPath<T>(g: Graph<T>, older p: seq<T>) {
    && p != [] && (forall i :: 0 <= i < |p| ==> p[i] in g)
    && forall i :: 0 < i < |p| ==> p[i] in g[p[i - 1]]
  }

  ghost predicate IsSimplePath<T>(g: Graph<T>, older p: seq<T>) {
    IsPath(g, p) && NoDuplicates(p)
  }

  /** A path that has been walked up to a node with ties. */
  ghost predicate Walked<T>(g: Graph<T>, p: seq<T>) {
    && (p != [] ==> IsSimplePath(g, p))
    && forall x <- p :: x in g && g[x] != []
  }

  /** n may come next after p. */
  ghost predicate Next<T>(g: Graph<T>, p: seq<T>, n: T) {
    n in g && (p != [] ==> p[|p| - 1] in g && n in g[p[|p| - 1]])
  }

  ghost predicate AllNext<T>(g: Graph<T>, p: seq<T>, ns: seq<T>) {
    forall n <- ns :: n in g && Next(g, p, n)
  }

  lemma SeenMore<T>(p: seq<T>, n: T)
    ensures Seen(p + [n]) == Seen(p) + {n}
  {
  }

  // ---------------------------------------------------------------- what emit visits

  /** The paths along which `emit` at node n reaches a logger's sinks, in order; p leads to n and
      is what the visited set holds. A node without ties does not look at the set. */
  ghost function Emits<T>(g: Graph<T>, p: seq<T>, n: T): seq<seq<T>>
    requires Closed(g) && n in g
    decreases g.Keys - Seen(p), 0
  {
    if g[n] == [] then [p + [n]]
    else if n in p then []
    else
      SeenMore(p, n);
      [p + [n]] + EmitsAll(g, p + [n], g[n])
  }

  ghost function EmitsAll<T>(g: Graph<T>, p: seq<T>, ns: seq<T>): seq<seq<T>>
    requires Closed(g) && forall n <- ns :: n in g
    decreases g.Keys - Seen(p), 1 + |ns|
  {
    if ns == [] then []
    else EmitsAll(g, p, ns[..|ns| - 1]) + Emits(g, p, ns[|ns| - 1])
  }

  lemma Longer<T>(g: Graph<T>, p: seq<T>, n: T)
    requires Walked(g, p) && Next(g, p, n) && n !in p
    ensures IsSimplePath(g, p + [n]) && (g[n] != [] ==> Walked(g, p + [n]))
  {
  }

  lemma LastTied<T>(g: Graph<T>, p: seq<T>, n: T)
    requires Closed(g) && Walked(g, p) && Next(g, p, n) && n !in p && n in g
    ensures AllNext(g, p + [n], g[n])
  {
  }

  /** Every visit is along a simple path that continues p through n. */
  lemma {:induction false} EmitsSimple<T>(g: Graph<T>, p: seq<T>, n: T, i: nat)
    requires Closed(g) && Walked(g, p) && Next(g, p, n) && i < |Emits(g, p, n)|
    ensures IsSimplePath(g, Emits(g, p, n)[i]) && p + [n] <= Emits(g, p, n)[i]
    decreases g.Keys - Seen(p), 0
  {
    if n !in p {
      Longer(g, p, n);
      if g[n] != [] && 0 < i {
        LastTied(g, p, n);
        SeenMore(p, n);
        EmitsAllSimple(g, p + [n], g[n], i - 1);
      }
    }
  }

  lemma {:induction false} EmitsAllSimple<T>(g: Graph<T>, p: seq<T>, ns: seq<T>, i: nat)
    requires Closed(g) && Walked(g, p) && AllNext(g, p, ns) && i < |EmitsAll(g, p, ns)|
    ensures var q := EmitsAll(g, p, ns)[i];
            IsSimplePath(g, q) && p <= q && |p| < |q| && q[|p|] in ns
    decreases g.Keys - Seen(p), 1 + |ns|
  {
    var front, last := ns[..|ns| - 1], ns[|ns| - 1];
    if i < |EmitsAll(g, p, front)| {
      EmitsAllSimple(g, p, front, i);
    } else {
      EmitsSimple(g, p, last, i - |EmitsAll(g, p, front)|);
    }
  }

  lemma NotBack<T>(p: seq<T>, n: T, q: seq<T>)
    requires NoDuplicates(q) && p + [n] <= q
    ensures q[|p|] == n && n !in p
  {
    assert q[|p|] == (p + [n])[|p|];
    forall k | 0 <= k < |p| ensures p[k] != n {
      assert q[k] == (p + [n])[k];
    }
  }

  /** Every simple path that continues p through n is visited. */
  lemma {:induction false} EmitsEvery<T>(g: Graph<T>, p: seq<T>, n: T, q: seq<T>)
    requires Closed(g) && Walked(g, p) && Next(g, p, n)
    requires IsSimplePath(g, q) && p + [n] <= q
    ensures q in Emits(g, p, n)
    decreases g.Keys - Seen(p), 0
  {
    NotBack(p, n, q);
    if q != p + [n] {
      assert q[|p| + 1] in g[q[|p|]];
      Longer(g, p, n);
      LastTied(g, p, n);
      SeenMore(p, n);
      EmitsAllEvery(g, p + [n], g[n], q);
    }
  }

  lemma {:induction false} EmitsAllEvery<T>(g: Graph<T>, p: seq<T>, ns: seq<T>, q: seq<T>)
    requires Closed(g) && Walked(g, p) && AllNext(g, p, ns)
    requires IsSimplePath(g, q) && p <= q && |p| < |q| && q[|p|] in ns
    ensures q in EmitsAll(g, p, ns)
    decreases g.Keys - Seen(p), 1 + |ns|
  {
    var front, last := ns[..|ns| - 1], ns[|ns| - 1];
    if q[|p|] == last {
      assert p + [last] == q[..|p| + 1];
      EmitsEvery(g, p, last, q);
    } else {
      EmitsAllEvery(g, p, front, q);
    }
  }

  /** No path is visited twice. */
  lemma {:induction false} EmitsOnce<T>(g: Graph<T>, p: seq<T>, n: T)
    requires Closed(g) && Walked(g, p) && Next(g, p, n)
    ensures NoDuplicates(Emits(g, p, n))
    decreases g.Keys - Seen(p), 0
  {
    if g[n] != [] && n !in p {
      Longer(g, p, n);
      LastTied(g, p, n);
      SeenMore(p, n);
      EmitsAllOnce(g, p + [n], g[n]);
      var all := EmitsAll(g, p + [n], g[n]);
      forall i | 0 <= i < |all| ensures all[i] != p + [n] {
        EmitsAllSimple(g, p + [n], g[n], i);
      }
    }
  }

  lemma {:induction false} EmitsAllOnce<T>(g: Graph<T>, p: seq<T>, ns: seq<T>)
    requires Closed(g) && Walked(g, p) && AllNext(g, p, ns) && NoDuplicates(ns)
    ensures NoDuplicates(EmitsAll(g, p, ns))
    decreases g.Keys - Seen(p), 1 + |ns|
  {
    if ns != [] {
      var front, last := ns[..|ns| - 1], ns[|ns| - 1];
      EmitsAllOnce(g, p, front);
      EmitsOnce(g, p, last);
      var a, b := EmitsAll(g, p, front), Emits(g, p, last);
      forall i, j | 0 <= i < |a| && 0 <= j < |b| ensures a[i] != b[j] {
        EmitsAllSimple(g, p, front, i);
        EmitsSimple(g, p, last, j);
        assert b[j][|p|] == last;
      }
    }
  }

  /** `emit` at n visits exactly the simple paths from n, each once. */
  lemma EmitsSimplePaths<T>(g: Graph<T>, n: T, q: seq<T>)
    requires Closed(g) && n in g
    ensures NoDuplicates(Emits(g, [], n))
    ensures q in Emits(g, [], n) <==> IsSimplePath(g, q) && q[0] == n
  {
    assert [] + [n] == [n];
    EmitsOnce(g, [], n);
    if q in Emits(g, [], n) {
      var i :| 0 <= i < |Emits(g, [], n)| && Emits(g, [], n)[i] == q;
      EmitsSimple(g, [], n, i);
    }
    if IsSimplePath(g, q) && q[0] == n {
      assert [n] <= q;
      EmitsEvery(g, [], n, q);
    }
  }

  // ---------------------------------------------------------------- what flush visits

  /** `flush` flushes the sinks before it looks at the visited set, and looks at it even without
      ties. */
  ghost function Flushes<T>(g: Graph<T>, p: seq<T>, n: T): seq<T>
    requires Closed(g) && n in g
    decreases g.Keys - Seen(p), 0
  {
    if n in p then [n]
    else
      SeenMore(p, n);
      [n] + FlushesAll(g, p + [n], g[n])
  }

  ghost function FlushesAll<T>(g: Graph<T>, p: seq<T>, ns: seq<T>): seq<T>
    requires Closed(g) && forall n <- ns :: n in g
    decreases g.Keys - Seen(p), 1 + |ns|
  {
    if ns == [] then []
    else FlushesAll(g, p, ns[..|ns| - 1]) + Flushes(g, p, ns[|ns| - 1])
  }

  /** The end of every simple path that continues p through n is flushed. */
  lemma {:induction false} FlushesEvery<T>(g: Graph<T>, p: seq<T>, n: T, q: seq<T>)
    requires Closed(g) && n in g && IsSimplePath(g, q) && p + [n] <= q
    ensures q[|q| - 1] in Flushes(g, p, n)
    decreases g.Keys - Seen(p), 0
  {
    NotBack(p, n, q);
    if q != p + [n] {
      assert q[|p| + 1] in g[q[|p|]];
      SeenMore(p, n);
      FlushesAllEvery(g, p + [n], g[n], q);
    }
  }

  lemma {:induction false} FlushesAllEvery<T>(g: Graph<T>, p: seq<T>, ns: seq<T>, q: seq<T>)
    requires Closed(g) && (forall n <- ns :: n in g)
    requires IsSimplePath(g, q) && p <= q && |p| < |q| && q[|p|] in ns
    ensures q[|q| - 1] in FlushesAll(g, p, ns)
    decreases g.Keys - Seen(p), 1 + |ns|
  {
    var front, last := ns[..|ns| - 1], ns[|ns| - 1];
    if q[|p|] == last {
      assert p + [last] == q[..|p| + 1];
      FlushesEvery(g, p, last, q);
    } else {
      FlushesAllEvery(g, p, front, q);
    }
  }

  // ---------------------------------------------------------------- reachability

  /** A path with a node twice has a shorter one with the same ends. */
  lemma Shortcut<T>(g: Graph<T>, p: seq<T>, i: nat, j: nat)
    requires IsPath(g, p) && i < j < |p| && p[i] == p[j]
    ensures var q := p[..i] + p[j..];
            IsPath(g, q) && |q| < |p| && q[0] == p[0] && q[|q| - 1] == p[|p| - 1]
  {
    var q := p[..i] + p[j..];
    forall k | 0 < k < |q| ensures q[k] in g[q[k - 1]] {
      if k == i {
        assert q[k] == p[j] == p[i] && q[k - 1] == p[i - 1];
      } else if i < k {
        assert q[k] == p[k - i + j] && q[k - 1] == p[k - i + j - 1];
      }
    }
  }

  /** What can be reached at all can be reached by a simple path. */
  lemma {:induction false} SimplePathExists<T>(g: Graph<T>, p: seq<T>) returns (q: seq<T>)
    requires IsPath(g, p)
    ensures IsSimplePath(g, q) && q[0] == p[0] && q[|q| - 1] == p[|p| - 1]
    decreases |p|
  {
    if NoDuplicates(p) {
      q := p;
    } else {
      var i, j :| 0 <= i < j < |p| && p[i] == p[j];
      Shortcut(g, p, i, j);
      q := SimplePathExists(g, p[..i] + p[j..]);
    }
  }

  /** `flush` at the start of any path flushes its end, and `emit` writes there. */
  lemma ReachesAll<T>(g: Graph<T>, p: seq<T>)
    requires Closed(g) && IsPath(g, p)
    ensures p[|p| - 1] in Flushes(g, [], p[0])
    ensures exists q :: q in Emits(g, [], p[0]) && q != [] && q[|q| - 1] == p[|p| - 1]
  {
    var q := SimplePathExists(g, p);
    assert [] + [p[0]] == [p[0]] && [p[0]] <= q;
    FlushesEvery(g, [], p[0], q);
    EmitsEvery(g, [], p[0], q);
  }

  /** And nothing that cannot be reached. */
  lemma {:induction false} FlushesReachable<T>(g: Graph<T>, p: seq<T>, n: T, i: nat) returns (q: seq<T>)
    requires Closed(g) && n in g && i < |Flushes(g, p, n)|
    ensures IsPath(g, q) && q[0] == n && q[|q| - 1] == Flushes(g, p, n)[i]
    decreases g.Keys - Seen(p), 0
  {
    q := [n];
    if 0 < i {
      SeenMore(p, n);
      var r := FlushesAllReachable(g, p + [n], g[n], i - 1);
      q := [n] + r;
    }
  }

  lemma {:induction false} FlushesAllReachable<T>(g: Graph<T>, p: seq<T>, ns: seq<T>, i: nat) returns (q: seq<T>)
    requires Closed(g) && (forall n <- ns :: n in g) && i < |FlushesAll(g, p, ns)|
    ensures IsPath(g, q) && q[0] in ns && q[|q| - 1] == FlushesAll(g, p, ns)[i]
    decreases g.Keys - Seen(p), 1 + |ns|
  {
    var front, last := ns[..|ns| - 1], ns[|ns| - 1];
    if i < |FlushesAll(g, p, front)| {
      q := FlushesAllReachable(g, p, front, i);
    } else {
      q := FlushesReachable(g, p, last, i - |FlushesAll(g, p, front)|);
    }
  }

  // ---------------------------------------------------------------- when a node is visited once

  /** A simple path from l to m. */
  ghost predicate Leads<T>(g: Graph<T>, l: T, m: T, older q: seq<T>) {
    IsSimplePath(g, q) && q[0] == l && q[|q| - 1] == m
  }

  /** There is exactly one. */
  ghost predicate OneWay<T>(g: Graph<T>, l: T, m: T) {
    exists q :: Leads(g, l, m, q) && forall r :: Leads(g, l, m, r) ==> r == q
  }

  /** m is tied from u, and u can be reached from l without passing m. */
  ghost predicate Enters<T>(g: Graph<T>, l: T, u: T, m: T) {
    u in g && m in g[u] && exists q :: Leads(g, l, u, q) && m !in q
  }

  /** No node can be entered from two sides. */
  ghost predicate OneEntrance<T>(g: Graph<T>, l: T) {
    forall m <- g, u <- g, v <- g :: Enters(g, l, u, m) && Enters(g, l, v, m) ==> u == v
  }

  lemma EnteredLast<T>(g: Graph<T>, l: T, m: T, q: seq<T>)
    requires Leads(g, l, m, q) && 2 <= |q|
    ensures var init := q[..|q| - 1]; var u := init[|init| - 1];
            Leads(g, l, u, init) && u in g && Enters(g, l, u, m)
  {
    var init := q[..|q| - 1];
    assert forall i :: 0 <= i < |init| ==> init[i] == q[i];
    assert Leads(g, l, init[|init| - 1], init) && m !in init;
  }

  lemma {:induction false} SameWay<T>(g: Graph<T>, l: T, m: T, q: seq<T>, r: seq<T>)
    requires OneEntrance(g, l) && Leads(g, l, m, q) && Leads(g, l, m, r)
    ensures q == r
    decreases |q|
  {
    if |q| == 1 || |r| == 1 {
      assert m == l && q[0] == q[|q| - 1] && r[0] == r[|r| - 1];
    } else {
      EnteredLast(g, l, m, q);
      EnteredLast(g, l, m, r);
      SameWay(g, l, q[|q| - 2], q[..|q| - 1], r[..|r| - 1]);
      assert q == q[..|q| - 1] + [m] && r == r[..|r| - 1] + [m];
    }
  }

  lemma LeadsOn<T>(g: Graph<T>, l: T, u: T, m: T, q: seq<T>)
    requires Leads(g, l, u, q) && m in g && m in g[u] && m !in q
    ensures Leads(g, l, m, q + [m])
  {
  }

  /** Every node that can be reached is reached in one way only, exactly when none can be entered
      from two sides. */
  lemma OneWayIff<T>(g: Graph<T>, l: T)
    ensures (forall m <- g :: (exists q :: Leads(g, l, m, q)) ==> OneWay(g, l, m)) <==> OneEntrance(g, l)
  {
    if OneEntrance(g, l) {
      forall m, q | m in g && Leads(g, l, m, q) ensures OneWay(g, l, m) {
        forall r | Leads(g, l, m, r) ensures r == q { SameWay(g, l, m, q, r); }
      }
    }
    if forall m <- g :: (exists q :: Leads(g, l, m, q)) ==> OneWay(g, l, m) {
      forall m, u, v | m in g && u in g && v in g && Enters(g, l, u, m) && Enters(g, l, v, m) ensures u == v {
        var q :| Leads(g, l, u, q) && m !in q;
        var r :| Leads(g, l, v, r) && m !in r;
        LeadsOn(g, l, u, m, q);
        LeadsOn(g, l, v, m, r);
        assert q + [m] == r + [m];
        assert q == (q + [m])[..|q|] && r == (r + [m])[..|r|];
      }
    }
  }

  lemma EmitsOneTie<T>(g: Graph<T>, p: seq<T>, n: T, m: T)
    requires Closed(g) && n in g && g[n] == [m]
    ensures m in g && EmitsAll(g, p, g[n]) == Emits(g, p, m)
  {
    assert [m][..0] == [] && EmitsAll(g, p, []) == [];
    assert EmitsAll(g, p, [m]) == EmitsAll(g, p, [m][..0]) + Emits(g, p, m);
  }

  lemma EmitsTwoTies<T>(g: Graph<T>, p: seq<T>, n: T, m: T, k: T)
    requires Closed(g) && n in g && g[n] == [m, k]
    ensures m in g && k in g && EmitsAll(g, p, g[n]) == Emits(g, p, m) + Emits(g, p, k)
  {
    assert [m][..0] == [] && [m, k][..1] == [m];
    assert EmitsAll(g, p, []) == [];
    assert EmitsAll(g, p, [m]) == EmitsAll(g, p, [m][..0]) + Emits(g, p, m);
    assert EmitsAll(g, p, [m, k]) == EmitsAll(g, p, [m, k][..1]) + Emits(g, p, k);
  }

  lemma EmitsOnward<T>(g: Graph<T>, p: seq<T>, n: T)
    requires Closed(g) && n in g && g[n] != []
    ensures Emits(g, p, n) == if n in p then [] else [p + [n]] + EmitsAll(g, p + [n], g[n])
  {
    SeenMore(p, n);
  }

  /** Two nodes tied to each other: each is visited once. */
  lemma Pair<T>(a: T, b: T)
    requires a != b
    ensures var g := map[a := [b], b := [a]];
            Closed(g) && Emits(g, [], a) == [[a], [a, b]]
  {
    var g := map[a := [b], b := [a]];
    hide Emits, EmitsAll;
    EmitsOnward(g, [], a);
    EmitsOneTie(g, [a], a, b);
    EmitsOnward(g, [a], b);
    EmitsOneTie(g, [a, b], b, a);
    EmitsOnward(g, [a, b], a);
    assert [] + [a] == [a] && [a] + [b] == [a, b];
    assert [[a]] + ([[a, b]] + []) == [[a], [a, b]];
  }

  /** Three nodes all tied to each other: the two others are visited twice. */
  lemma Triangle<T>(a: T, b: T, c: T)
    requires a != b && a != c && b != c
    ensures var g := map[a := [b, c], b := [a, c], c := [a, b]];
            Closed(g) && Emits(g, [], a) == [[a], [a, b], [a, b, c], [a, c], [a, c, b]]
  {
    var g := map[a := [b, c], b := [a, c], c := [a, b]];
    assert Closed(g);
    TriangleHalf(g, a, b, c, b, c);
    TriangleHalf(g, a, b, c, c, b);
    hide Emits, EmitsAll, Closed;
    EmitsOnward(g, [], a);
    EmitsTwoTies(g, [a], a, b, c);
    assert [] + [a] == [a];
    assert [[a]] + ([[a, b], [a, b, c]] + [[a, c], [a, c, b]]) == [[a], [a, b], [a, b, c], [a, c], [a, c, b]];
  }

  lemma TriangleHalf<T>(g: Graph<T>, a: T, b: T, c: T, x: T, y: T)
    requires a != b && a != c && b != c && g == map[a := [b, c], b := [a, c], c := [a, b]] && Closed(g)
    requires (x == b && y == c) || (x == c && y == b)
    ensures Emits(g, [a], x) == [[a, x], [a, x, y]]
  {
    hide Emits, EmitsAll, Closed;
    EmitsOnward(g, [a], x);
    EmitsTwoTies(g, [a, x], x, a, y);
    EmitsOnward(g, [a, x], a);
    EmitsOnward(g, [a, x], y);
    EmitsTwoTies(g, [a, x, y], y, a, x);
    EmitsOnward(g, [a, x, y], a);
    EmitsOnward(g, [a, x, y], x);
    assert [a] + [x] == [a, x] && [a, x] + [y] == [a, x, y];
  }

  /** Two ways to the same node: it is visited twice. */
  lemma Diamond<T>(a: T, b: T, c: T, d: T)
    requires a != b && a != c && a != d && b != c && b != d && c != d
    ensures var g := map[a := [b, c], b := [d], c := [d], d := []];
            Closed(g) && Emits(g, [], a) == [[a], [a, b], [a, b, d], [a, c], [a, c, d]]
  {
    var g := map[a := [b, c], b := [d], c := [d], d := []];
    assert Closed(g);
    DiamondHalf(g, a, b, d);
    DiamondHalf(g, a, c, d);
    hide Emits, EmitsAll, Closed;
    EmitsOnward(g, [], a);
    EmitsTwoTies(g, [a], a, b, c);
    assert [] + [a] == [a];
    assert [[a]] + ([[a, b], [a, b, d]] + [[a, c], [a, c, d]]) == [[a], [a, b], [a, b, d], [a, c], [a, c, d]];
  }

  lemma DiamondHalf<T>(g: Graph<T>, a: T, x: T, d: T)
    requires Closed(g) && a != x && x in g && d in g && g[x] == [d] && g[d] == []
    ensures Emits(g, [a], x) == [[a, x], [a, x, d]]
  {
    assert Emits(g, [a, x], d) == [[a, x] + [d]];
    hide Emits, EmitsAll, Closed;
    EmitsOnward(g, [a], x);
    EmitsOneTie(g, [a, x], x, d);
    assert [a] + [x] == [a, x] && [a, x] + [d] == [a, x, d];
  }
}
