/** Finite directed graphs given by the successor list of every node, and a ranking that shows there
    is no cycle. */
module DependencyGraph {
  import opened Options

  type Graph<N(==)> = map<N, seq<N>>

  /** Every edge goes to a node of the graph, and down in rank. */
  ghost predicate Ranked<N>(g: Graph<N>, rank: map<N, nat>) {
    && rank.Keys == g.Keys
    && forall n :: n in g ==> forall c :: c in g[n] ==> c in g && rank[c] < rank[n]
  }

  ghost predicate IsPath<N>(g: Graph<N>, p: seq<N>) {
    && p != []
    && forall i :: 0 <= i < |p| - 1 ==> p[i] in g && p[i + 1] in g[p[i]]
  }

  /** A ranked graph has no cycle: a path of one edge or more never comes back. */
  lemma {:induction false} NoCycle<N>(g: Graph<N>, rank: map<N, nat>, p: seq<N>)
    requires Ranked(g, rank) && IsPath(g, p) && |p| >= 2
    ensures p[0] != p[|p| - 1]
    ensures p[0] in g && p[|p| - 1] in g && rank[p[|p| - 1]] < rank[p[0]]
  {
    var q := p[..|p| - 1];
    assert q[|q| - 1] in g && p[|p| - 1] in g[q[|q| - 1]];
    if |q| >= 2 {
      NoCycle(g, rank, q);
    }
  }

  // ---- reachable nodes ------------------------------------------------------------------------

  /** The nodes reachable from a, itself included. */
  ghost function Reach<N>(g: Graph<N>, rank: map<N, nat>, a: N): (r: set<N>)
    requires Ranked(g, rank) && a in g
    ensures a in r && r <= g.Keys
    decreases rank[a] + 1, 0
  {
    {a} + ReachAll(g, rank, g[a], rank[a])
  }

  ghost function ReachAll<N>(g: Graph<N>, rank: map<N, nat>, s: seq<N>, bound: nat): (r: set<N>)
    requires Ranked(g, rank) && forall c :: c in s ==> c in g && rank[c] < bound
    ensures (forall c :: c in s ==> c in r) && r <= g.Keys
    decreases bound, |s|
  {
    if s == [] then {} else
      Reach(g, rank, s[0]) + ReachAll(g, rank, s[1..], bound)
  }

  ghost predicate ClosedSet<N>(g: Graph<N>, s: set<N>) {
    forall n :: n in s && n in g ==> forall c :: c in g[n] ==> c in s
  }

  /** Reach is the least set that holds a and is closed under edges. */
  lemma {:induction false} ReachLeast<N>(g: Graph<N>, rank: map<N, nat>, a: N, s: set<N>)
    requires Ranked(g, rank) && a in g && a in s && ClosedSet(g, s)
    ensures Reach(g, rank, a) <= s
    decreases rank[a] + 1, 0
  {
    ReachAllLeast(g, rank, g[a], rank[a], s);
  }

  lemma {:induction false} ReachAllLeast<N>(g: Graph<N>, rank: map<N, nat>, l: seq<N>, bound: nat, s: set<N>)
    requires Ranked(g, rank) && (forall c :: c in l ==> c in g && rank[c] < bound && c in s) && ClosedSet(g, s)
    ensures ReachAll(g, rank, l, bound) <= s
    decreases bound, |l|
  {
    if l != [] {
      ReachLeast(g, rank, l[0], s);
      ReachAllLeast(g, rank, l[1..], bound, s);
    }
  }

  lemma {:induction false} ReachClosed<N>(g: Graph<N>, rank: map<N, nat>, a: N)
    requires Ranked(g, rank) && a in g
    ensures ClosedSet(g, Reach(g, rank, a))
    decreases rank[a] + 1, 0
  {
    ReachAllClosed(g, rank, g[a], rank[a]);
    var all := ReachAll(g, rank, g[a], rank[a]);
    forall n, c | n in Reach(g, rank, a) && c in g[n] ensures c in Reach(g, rank, a) {
      if n != a { assert n in all; }
    }
  }

  lemma {:induction false} ReachAllClosed<N>(g: Graph<N>, rank: map<N, nat>, l: seq<N>, bound: nat)
    requires Ranked(g, rank) && forall c :: c in l ==> c in g && rank[c] < bound
    ensures ClosedSet(g, ReachAll(g, rank, l, bound))
    decreases bound, |l|
  {
    if l != [] {
      ReachClosed(g, rank, l[0]);
      ReachAllClosed(g, rank, l[1..], bound);
    }
  }

  lemma ReachSuccessor<N>(g: Graph<N>, rank: map<N, nat>, a: N, c: N)
    requires Ranked(g, rank) && a in g && c in g[a]
    ensures Reach(g, rank, c) <= Reach(g, rank, a)
  {
    ReachClosed(g, rank, a);
    ReachLeast(g, rank, c, Reach(g, rank, a));
  }

  lemma {:induction false} ReachRanks<N>(g: Graph<N>, rank: map<N, nat>, a: N)
    requires Ranked(g, rank) && a in g
    ensures forall n :: n in Reach(g, rank, a) ==> n == a || rank[n] < rank[a]
    decreases rank[a] + 1, 0
  {
    ReachAllRanks(g, rank, g[a], rank[a]);
  }

  lemma {:induction false} ReachAllRanks<N>(g: Graph<N>, rank: map<N, nat>, l: seq<N>, bound: nat)
    requires Ranked(g, rank) && forall c :: c in l ==> c in g && rank[c] < bound
    ensures forall n :: n in ReachAll(g, rank, l, bound) ==> rank[n] < bound
    decreases bound, |l|
  {
    if l != [] {
      ReachRanks(g, rank, l[0]);
      ReachAllRanks(g, rank, l[1..], bound);
    }
  }

  // ---- changing the graph ---------------------------------------------------------------------

  /** Lift everything that reaches p above d. */
  ghost function Lifted<N>(g: Graph<N>, rank: map<N, nat>, p: N, d: N): map<N, nat>
    requires Ranked(g, rank) && p in g && d in g
  {
    map n | n in g :: rank[n] + (if p in Reach(g, rank, n) then rank[d] + 1 else 0)
  }

  /** A new edge from p to d keeps the graph free of cycles if d does not reach p. */
  lemma EdgeKeepsRanked<N>(g: Graph<N>, rank: map<N, nat>, p: N, d: N)
    requires Ranked(g, rank) && p in g && d in g && p !in Reach(g, rank, d)
    ensures Ranked(g[p := g[p] + [d]], Lifted(g, rank, p, d))
  {
    var g', rank' := g[p := g[p] + [d]], Lifted(g, rank, p, d);
    forall n, c | n in g' && c in g'[n] ensures c in g' && rank'[c] < rank'[n] {
      if c in g[n] {
        ReachSuccessor(g, rank, n, c);
      } else {
        assert n == p && c == d;
      }
    }
  }

  lemma LeafKeepsRanked<N>(g: Graph<N>, rank: map<N, nat>, n: N)
    requires Ranked(g, rank) && n !in g
    ensures Ranked(g[n := []], rank[n := 0])
  {
  }

  lemma CutKeepsRanked<N>(g: Graph<N>, rank: map<N, nat>, n: N)
    requires Ranked(g, rank) && n in g
    ensures Ranked(g[n := []], rank)
  {
  }

  /** g and h agree on the nodes they share, except at p: whatever reaches p in h does so in g. */
  lemma {:induction false} ReachesWithout<N>(g: Graph<N>, rg: map<N, nat>, h: Graph<N>, rh: map<N, nat>, p: N, a: N)
    requires Ranked(g, rg) && Ranked(h, rh) && a in g && a in h && p in Reach(h, rh, a)
    requires forall n :: n in g && n in h && n != p ==> h[n] == g[n]
    ensures p in Reach(g, rg, a)
    decreases rg[a] + 1, 0
  {
    if a != p {
      ReachesWithoutAll(g, rg, h, rh, p, g[a], rg[a], rh[a]);
    }
  }

  lemma {:induction false} ReachesWithoutAll<N>(g: Graph<N>, rg: map<N, nat>, h: Graph<N>, rh: map<N, nat>, p: N,
                                                l: seq<N>, bg: nat, bh: nat)
    requires Ranked(g, rg) && Ranked(h, rh)
    requires forall c :: c in l ==> c in g && c in h && rg[c] < bg && rh[c] < bh
    requires p in ReachAll(h, rh, l, bh)
    requires forall n :: n in g && n in h && n != p ==> h[n] == g[n]
    ensures p in ReachAll(g, rg, l, bg)
    decreases bg, |l|
  {
    if p in Reach(h, rh, l[0]) {
      ReachesWithout(g, rg, h, rh, p, l[0]);
    } else {
      ReachesWithoutAll(g, rg, h, rh, p, l[1..], bg, bh);
    }
  }

  // ---- topological order ----------------------------------------------------------------------

  /** Nodes without repetition, each after all its successors. */
  ghost predicate Ordered<N>(g: Graph<N>, order: seq<N>) {
    && (forall n :: n in order ==> n in g)
    && (forall i, j :: 0 <= i < j < |order| ==> order[i] != order[j])
    && (forall i :: 0 <= i < |order| ==> forall c :: c in g[order[i]] ==> c in order[..i])
  }

  lemma OrderedAppend<N>(g: Graph<N>, order: seq<N>, n: N)
    requires Ordered(g, order) && n in g && n !in order && forall c :: c in g[n] ==> c in order
    ensures Ordered(g, order + [n])
  {
    var longer := order + [n];
    forall i | 0 <= i < |longer| ensures forall c :: c in g[longer[i]] ==> c in longer[..i] {
      assert longer[..i] == order[..i];
    }
  }

  /** Not only the direct successors of a node come before it, but everything it reaches. */
  lemma OrderedIsTransitive<N>(g: Graph<N>, rank: map<N, nat>, order: seq<N>, i: nat, n: N)
    requires Ranked(g, rank) && Ordered(g, order) && i < |order|
    requires n in Reach(g, rank, order[i]) && n != order[i]
    ensures n in order[..i]
  {
    var prefix := order[..i + 1];
    var upTo := set m | m in prefix;
    forall m, c | m in upTo && c in g[m] ensures c in upTo {
      var k :| 0 <= k < i + 1 && prefix[k] == m;
      assert c in order[..k];
      assert order[..k] <= prefix;
    }
    ReachLeast(g, rank, order[i], upTo);
    var k :| 0 <= k < i + 1 && prefix[k] == n;
    assert order[..i][k] == n;
  }

  lemma OrderedIsClosed<N>(g: Graph<N>, rank: map<N, nat>, order: seq<N>, n: N)
    requires Ranked(g, rank) && Ordered(g, order) && n in order
    ensures forall m :: m in Reach(g, rank, n) ==> m in order
  {
    var all := set m | m in order;
    forall m, c | m in all && c in g[m] ensures c in all {
      var k :| 0 <= k < |order| && order[k] == m;
      assert c in order[..k];
    }
    ReachLeast(g, rank, n, all);
  }

  // ---- searching by name ----------------------------------------------------------------------

  datatype Outcome<N> = Found(node: N) | NotFound | Panics

  /** Depth-first search for a name; it panics at a node that has none. */
  ghost function Find<N>(g: Graph<N>, rank: map<N, nat>, names: map<N, Option<string>>, a: N, name: string): Outcome<N>
    requires Ranked(g, rank) && names.Keys == g.Keys && a in g
    decreases rank[a] + 1, 0
  {
    match names[a]
    case None => Panics
    case Some(x) => if x == name then Found(a) else FindAll(g, rank, names, g[a], rank[a], name)
  }

  ghost function FindAll<N>(g: Graph<N>, rank: map<N, nat>, names: map<N, Option<string>>, l: seq<N>, bound: nat,
                            name: string): Outcome<N>
    requires Ranked(g, rank) && names.Keys == g.Keys && forall c :: c in l ==> c in g && rank[c] < bound
    decreases bound, |l|
  {
    if l == [] then NotFound
    else
      var r := Find(g, rank, names, l[0], name);
      if r == NotFound then FindAll(g, rank, names, l[1..], bound, name) else r
  }

  ghost predicate FindMeans<N>(names: map<N, Option<string>>, reach: set<N>, name: string, r: Outcome<N>)
    requires reach <= names.Keys
  {
    match r
    case Found(n) => n in reach && names[n] == Some(name)
    case NotFound => forall n :: n in reach ==> names[n].Some? && names[n] != Some(name)
    case Panics => exists n :: n in reach && names[n] == None
  }

  /** The search finds exactly the reachable names. It panics only if some reachable node has none. */
  lemma {:induction false} FindIsReach<N>(g: Graph<N>, rank: map<N, nat>, names: map<N, Option<string>>, a: N,
                                          name: string)
    requires Ranked(g, rank) && names.Keys == g.Keys && a in g
    ensures FindMeans(names, Reach(g, rank, a), name, Find(g, rank, names, a, name))
    decreases rank[a] + 1, 0
  {
    if names[a].Some? && names[a] != Some(name) {
      FindAllIsReach(g, rank, names, g[a], rank[a], name);
    }
  }

  lemma {:induction false} FindAllIsReach<N>(g: Graph<N>, rank: map<N, nat>, names: map<N, Option<string>>, l: seq<N>,
                                             bound: nat, name: string)
    requires Ranked(g, rank) && names.Keys == g.Keys && forall c :: c in l ==> c in g && rank[c] < bound
    ensures FindMeans(names, ReachAll(g, rank, l, bound), name, FindAll(g, rank, names, l, bound, name))
    decreases bound, |l|
  {
    if l != [] {
      FindIsReach(g, rank, names, l[0], name);
      if Find(g, rank, names, l[0], name) == NotFound {
        FindAllIsReach(g, rank, names, l[1..], bound, name);
      }
    }
  }

  // ---- in which order the search sees the nodes -----------------------------------------------

  /** All paths down from a, depth first: each node before what it points to. */
  ghost function Visit<N>(g: Graph<N>, rank: map<N, nat>, a: N): (v: seq<N>)
    requires Ranked(g, rank) && a in g
    ensures forall n :: n in v ==> n in g
    decreases rank[a] + 1, 0
  {
    [a] + VisitAll(g, rank, g[a], rank[a])
  }

  ghost function VisitAll<N>(g: Graph<N>, rank: map<N, nat>, l: seq<N>, bound: nat): (v: seq<N>)
    requires Ranked(g, rank) && forall c :: c in l ==> c in g && rank[c] < bound
    ensures forall n :: n in v ==> n in g
    decreases bound, |l|
  {
    if l == [] then [] else Visit(g, rank, l[0]) + VisitAll(g, rank, l[1..], bound)
  }

  /** The search cannot get past a node that has the name, or none. */
  ghost predicate Stops<N>(names: map<N, Option<string>>, n: N, name: string)
    requires n in names
  {
    names[n] == None || names[n] == Some(name)
  }

  /** The outcome is decided by the first node in v at which the search stops. */
  ghost predicate FirstDecides<N>(names: map<N, Option<string>>, v: seq<N>, name: string, r: Outcome<N>)
    requires forall n :: n in v ==> n in names
  {
    if r == NotFound then forall i :: 0 <= i < |v| ==> !Stops(names, v[i], name)
    else exists i :: FirstStopIs(names, v, name, i) && r == if names[v[i]] == None then Panics else Found(v[i])
  }

  ghost predicate FirstStopIs<N>(names: map<N, Option<string>>, v: seq<N>, name: string, i: int)
    requires forall n :: n in v ==> n in names
  {
    0 <= i < |v| && Stops(names, v[i], name) && forall j :: 0 <= j < i ==> !Stops(names, v[j], name)
  }

  lemma FirstDecidesInFront<N>(names: map<N, Option<string>>, u: seq<N>, v: seq<N>, name: string, r: Outcome<N>)
    requires (forall n :: n in u ==> n in names) && (forall n :: n in v ==> n in names)
    requires FirstDecides(names, u, name, r) && r != NotFound
    ensures FirstDecides(names, u + v, name, r)
  {
    var i :| FirstStopIs(names, u, name, i) && r == if names[u[i]] == None then Panics else Found(u[i]);
    assert forall j :: 0 <= j <= i ==> (u + v)[j] == u[j];
    assert FirstStopIs(names, u + v, name, i);
  }

  lemma FirstDecidesBehind<N>(names: map<N, Option<string>>, u: seq<N>, v: seq<N>, name: string, r: Outcome<N>)
    requires (forall n :: n in u ==> n in names) && (forall n :: n in v ==> n in names)
    requires FirstDecides(names, u, name, NotFound) && FirstDecides(names, v, name, r)
    ensures FirstDecides(names, u + v, name, r)
  {
    var w := u + v;
    assert forall j :: 0 <= j < |u| ==> w[j] == u[j];
    assert forall j :: |u| <= j < |w| ==> w[j] == v[j - |u|];
    if r != NotFound {
      var i :| FirstStopIs(names, v, name, i) && r == if names[v[i]] == None then Panics else Found(v[i]);
      assert FirstStopIs(names, w, name, |u| + i);
    }
  }

  /** The search returns what the first node on its way decides that is a placeholder or has the name: a
      panic, or that node. */
  lemma {:induction false} FindIsFirst<N>(g: Graph<N>, rank: map<N, nat>, names: map<N, Option<string>>, a: N,
                                          name: string)
    requires Ranked(g, rank) && names.Keys == g.Keys && a in g
    ensures FirstDecides(names, Visit(g, rank, a), name, Find(g, rank, names, a, name))
    decreases rank[a] + 1, 0
  {
    hide FirstDecides;
    var below := VisitAll(g, rank, g[a], rank[a]);
    DecidesAlone(names, a, name);
    if Stops(names, a, name) {
      FirstDecidesInFront(names, [a], below, name, if names[a] == None then Panics else Found(a));
    } else {
      FindAllIsFirst(g, rank, names, g[a], rank[a], name);
      FirstDecidesBehind(names, [a], below, name, FindAll(g, rank, names, g[a], rank[a], name));
    }
  }

  lemma DecidesAlone<N>(names: map<N, Option<string>>, a: N, name: string)
    requires a in names
    ensures FirstDecides(names, [a], name,
                         if !Stops(names, a, name) then NotFound else if names[a] == None then Panics else Found(a))
  {
    if Stops(names, a, name) {
      assert FirstStopIs(names, [a], name, 0);
    }
  }

  lemma {:induction false} FindAllIsFirst<N>(g: Graph<N>, rank: map<N, nat>, names: map<N, Option<string>>, l: seq<N>,
                                             bound: nat, name: string)
    requires Ranked(g, rank) && names.Keys == g.Keys && forall c :: c in l ==> c in g && rank[c] < bound
    ensures FirstDecides(names, VisitAll(g, rank, l, bound), name, FindAll(g, rank, names, l, bound, name))
    decreases bound, |l|
  {
    if l == [] {
    } else {
      hide FirstDecides;
      FindIsFirst(g, rank, names, l[0], name);
      var r := Find(g, rank, names, l[0], name);
      var u, v := Visit(g, rank, l[0]), VisitAll(g, rank, l[1..], bound);
      if r == NotFound {
        FindAllIsFirst(g, rank, names, l[1..], bound, name);
        FirstDecidesBehind(names, u, v, name, FindAll(g, rank, names, l[1..], bound, name));
      } else {
        FirstDecidesInFront(names, u, v, name, r);
      }
    }
  }

  /** The way leads through exactly the reachable nodes. */
  lemma {:induction false} VisitIsReach<N>(g: Graph<N>, rank: map<N, nat>, a: N)
    requires Ranked(g, rank) && a in g
    ensures forall n :: n in Visit(g, rank, a) <==> n in Reach(g, rank, a)
    decreases rank[a] + 1, 0
  {
    VisitAllIsReach(g, rank, g[a], rank[a]);
  }

  lemma {:induction false} VisitAllIsReach<N>(g: Graph<N>, rank: map<N, nat>, l: seq<N>, bound: nat)
    requires Ranked(g, rank) && forall c :: c in l ==> c in g && rank[c] < bound
    ensures forall n :: n in VisitAll(g, rank, l, bound) <==> n in ReachAll(g, rank, l, bound)
    decreases bound, |l|
  {
    if l != [] {
      VisitIsReach(g, rank, l[0]);
      VisitAllIsReach(g, rank, l[1..], bound);
    }
  }

  /** What a node that has the name points to makes no difference to the search for it. */
  lemma {:induction false} FindStopsAt<N>(g: Graph<N>, rank: map<N, nat>, names: map<N, Option<string>>, p: N, a: N,
                                          name: string)
    requires Ranked(g, rank) && names.Keys == g.Keys && a in g && p in g && names[p] == Some(name)
    requires Ranked(g[p := []], rank)
    ensures Find(g[p := []], rank, names, a, name) == Find(g, rank, names, a, name)
    decreases rank[a] + 1, 0
  {
    if a != p {
      FindAllStopsAt(g, rank, names, p, g[a], rank[a], name);
    }
  }

  lemma {:induction false} FindAllStopsAt<N>(g: Graph<N>, rank: map<N, nat>, names: map<N, Option<string>>, p: N,
                                             l: seq<N>, bound: nat, name: string)
    requires Ranked(g, rank) && names.Keys == g.Keys && p in g && names[p] == Some(name)
    requires (forall c :: c in l ==> c in g && rank[c] < bound) && Ranked(g[p := []], rank)
    ensures FindAll(g[p := []], rank, names, l, bound, name) == FindAll(g, rank, names, l, bound, name)
    decreases bound, |l|
  {
    if l != [] {
      FindStopsAt(g, rank, names, p, l[0], name);
      FindAllStopsAt(g, rank, names, p, l[1..], bound, name);
    }
  }
}
