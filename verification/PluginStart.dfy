/** Starting the plugins: a depth-first walk that marks every node it enters and starts it when it
    leaves it. */
module PluginStart {
  import opened Options
  import opened DependencyGraph
  import opened PluginRegistry

  datatype StartResult = Started | FailedToStart | StartPanics

  /** Which nodes have been entered, and which have been started, in order. */
  datatype Progress<N(==)> = Progress(invoked: set<N>, started: seq<N>)

  ghost function StartNode<N>(r: Registry<N>, s: Progress<N>, a: N): (Progress<N>, StartResult)
    requires Wf(r) && a in r.edges
    decreases r.rank[a] + 1, 0
  {
    if a in s.invoked then (s, Started)
    else
      var (s1, result) := StartList(r, s.(invoked := s.invoked + {a}), r.edges[a], r.rank[a]);
      if result != Started then (s1, result)
      else if r.plugins[a].None? then (s1, StartPanics)
      else if !r.plugins[a].value.starts then (s1, FailedToStart)
      else (s1.(started := s1.started + [a]), Started)
  }

  ghost function StartList<N>(r: Registry<N>, s: Progress<N>, l: seq<N>, bound: nat): (Progress<N>, StartResult)
    requires Wf(r) && forall c :: c in l ==> c in r.edges && r.rank[c] < bound
    decreases bound, |l|
  {
    if l == [] then (s, Started)
    else
      var (s1, result) := StartNode(r, s, l[0]);
      if result != Started then (s1, result) else StartList(r, s1, l[1..], bound)
  }

  /** All filed plugins, visited in the given order. */
  ghost function StartAll<N>(r: Registry<N>, s: Progress<N>, names: seq<string>): (Progress<N>, StartResult)
    requires Wf(r) && forall k :: k in names ==> k in r.deps
    decreases |names|
  {
    if names == [] then (s, Started)
    else
      var (s1, result) := StartNode(r, s, r.deps[names[0]]);
      if result != Started then (s1, result) else StartAll(r, s1, names[1..])
  }

  /** The started nodes are in topological order. Up to rank `bound`, whoever has been entered has been
      started: only nodes further up, which are being left later, are entered but not yet started. */
  ghost predicate Consistent<N>(r: Registry<N>, s: Progress<N>, bound: nat)
    requires Wf(r)
  {
    && Ordered(r.edges, s.started)
    && (forall n :: n in s.started ==> n in s.invoked)
    && s.invoked <= r.edges.Keys
    && (forall n :: n in s.invoked && r.rank[n] < bound ==> n in s.started)
  }

  /** The node has a plugin, and that starts. */
  ghost predicate Holds<N>(r: Registry<N>, n: N) {
    n in r.plugins && r.plugins[n].Some? && r.plugins[n].value.starts
  }

  /** Some node of the region is the reason for the result. */
  ghost predicate Reason<N>(r: Registry<N>, region: set<N>, result: StartResult)
    requires region <= r.plugins.Keys
  {
    match result
    case Started => true
    case FailedToStart => exists n :: n in region && r.plugins[n].Some? && !r.plugins[n].value.starts
    case StartPanics => exists n :: n in region && r.plugins[n].None?
  }

  /** What a walk through a region of the graph does. */
  ghost predicate Walked<N>(r: Registry<N>, s: Progress<N>, s': Progress<N>, result: StartResult, region: set<N>)
    requires Wf(r) && region <= r.edges.Keys
  {
    && Consistent(r, s', 0)
    && s.started <= s'.started && s.invoked <= s'.invoked
    && (forall n :: n in s'.started ==> n in s.started || (n in region && Holds(r, n)))
    && (result == Started ==> forall n :: n in s'.invoked && n !in s.invoked ==> n in s'.started)
    && Reason(r, region, result)
  }

  lemma WalkedTwice<N>(r: Registry<N>, s: Progress<N>, s1: Progress<N>, s2: Progress<N>, result: StartResult,
                       first: set<N>, second: set<N>)
    requires Wf(r) && first <= r.edges.Keys && second <= r.edges.Keys
    requires Walked(r, s, s1, Started, first) && Walked(r, s1, s2, result, second)
    ensures Walked(r, s, s2, result, first + second)
  {
    assert s.started <= s1.started <= s2.started;
    if result == FailedToStart {
      var n :| n in second && r.plugins[n].Some? && !r.plugins[n].value.starts;
      assert n in first + second;
    } else if result == StartPanics {
      var n :| n in second && r.plugins[n].None?;
      assert n in first + second;
    }
  }

  lemma StaysConsistent<N>(r: Registry<N>, s: Progress<N>, s': Progress<N>, region: set<N>, bound: nat)
    requires Wf(r) && region <= r.edges.Keys && Consistent(r, s, bound) && Walked(r, s, s', Started, region)
    ensures Consistent(r, s', bound)
  {
    assert s.started <= s'.started;
  }

  lemma {:induction false} StartNodeWalks<N>(r: Registry<N>, s: Progress<N>, a: N)
    requires Wf(r) && a in r.edges && Consistent(r, s, r.rank[a] + 1)
    ensures var (s', result) := StartNode(r, s, a);
            Walked(r, s, s', result, ReachFrom(r, a)) && (result == Started ==> a in s'.started)
    decreases r.rank[a] + 1, 0
  {
    if a !in s.invoked {
      var entered := s.(invoked := s.invoked + {a});
      var below := ReachAll(r.edges, r.rank, r.edges[a], r.rank[a]);
      StartListWalks(r, entered, r.edges[a], r.rank[a]);
      var (s1, result) := StartList(r, entered, r.edges[a], r.rank[a]);
      LeaveNode(r, s, a, entered, s1, result, below);
    }
  }

  /** The walk below a node ends without starting the node. */
  lemma LeaveUnstarted<N>(r: Registry<N>, s: Progress<N>, a: N, entered: Progress<N>, s1: Progress<N>,
                          result: StartResult, below: set<N>)
    requires Wf(r) && a in r.edges && below <= r.edges.Keys && entered == s.(invoked := s.invoked + {a})
    requires Walked(r, entered, s1, result, below) && result != Started
    ensures Walked(r, s, s1, result, {a} + below)
  {
    hide Ranked, Consistent, Holds;
    if result == FailedToStart {
      var n :| n in below && r.plugins[n].Some? && !r.plugins[n].value.starts;
      assert n in {a} + below;
    } else {
      var n :| n in below && r.plugins[n].None?;
      assert n in {a} + below;
    }
  }

  lemma LeaveFailing<N>(r: Registry<N>, s: Progress<N>, a: N, entered: Progress<N>, s1: Progress<N>,
                        result: StartResult, below: set<N>)
    requires Wf(r) && a in r.edges && below <= r.edges.Keys && entered == s.(invoked := s.invoked + {a})
    requires Walked(r, entered, s1, Started, below) && result != Started
    requires result == if r.plugins[a].None? then StartPanics
                       else if !r.plugins[a].value.starts then FailedToStart else Started
    ensures Walked(r, s, s1, result, {a} + below)
  {
    hide Ranked, Consistent, Holds;
    assert a in {a} + below;
  }

  /** After the dependencies, the node itself: it cannot have been started meanwhile, since nothing below
      it reaches it. */
  lemma LeaveStarted<N>(r: Registry<N>, s: Progress<N>, a: N, entered: Progress<N>, s1: Progress<N>, below: set<N>)
    requires Wf(r) && a in r.edges && below <= r.edges.Keys && entered == s.(invoked := s.invoked + {a})
    requires Walked(r, entered, s1, Started, below) && a !in s1.started && a !in s.invoked && Holds(r, a)
    requires forall c :: c in r.edges[a] ==> c in s1.started
    ensures Walked(r, s, s1.(started := s1.started + [a]), Started, {a} + below)
  {
    hide Wf, Holds;
    OrderedAppend(r.edges, s1.started, a);
    hide Ordered;
    assert s.started <= s1.started <= s1.started + [a];
  }

  lemma LeaveNode<N>(r: Registry<N>, s: Progress<N>, a: N, entered: Progress<N>, s1: Progress<N>, result: StartResult,
                     below: set<N>)
    requires Wf(r) && a in r.edges && Consistent(r, s, r.rank[a] + 1) && a !in s.invoked
    requires entered == s.(invoked := s.invoked + {a})
    requires below == ReachAll(r.edges, r.rank, r.edges[a], r.rank[a])
    requires (s1, result) == StartList(r, entered, r.edges[a], r.rank[a])
    requires Walked(r, entered, s1, result, below)
    requires result == Started ==> forall c :: c in r.edges[a] ==> c in s1.started
    ensures var (s', result') := StartNode(r, s, a);
            Walked(r, s, s', result', ReachFrom(r, a)) && (result' == Started ==> a in s'.started)
  {
    hide Ordered, Reason;
    ReachAllRanks(r.edges, r.rank, r.edges[a], r.rank[a]);
    assert ReachFrom(r, a) == {a} + below;
    var result' := StartNode(r, s, a).1;
    if result != Started {
      LeaveUnstarted(r, s, a, entered, s1, result, below);
    } else if result' != Started {
      LeaveFailing(r, s, a, entered, s1, result', below);
    } else {
      assert a !in s1.started;
      LeaveStarted(r, s, a, entered, s1, below);
    }
  }

  lemma {:induction false} StartListWalks<N>(r: Registry<N>, s: Progress<N>, l: seq<N>, bound: nat)
    requires Wf(r) && (forall c :: c in l ==> c in r.edges && r.rank[c] < bound) && Consistent(r, s, bound)
    ensures var (s', result) := StartList(r, s, l, bound);
            Walked(r, s, s', result, ReachAll(r.edges, r.rank, l, bound))
            && (result == Started ==> forall c :: c in l ==> c in s'.started)
    decreases bound, |l|
  {
    if l != [] {
      var (s1, result) := StartNode(r, s, l[0]);
      StartNodeWalks(r, s, l[0]);
      var first, rest := ReachFrom(r, l[0]), ReachAll(r.edges, r.rank, l[1..], bound);
      if result == Started {
        StaysConsistent(r, s, s1, first, bound);
        StartListWalks(r, s1, l[1..], bound);
        var (s2, result2) := StartList(r, s1, l[1..], bound);
        WalkedTwice(r, s, s1, s2, result2, first, rest);
      }
    }
  }

  // ---- starting everything --------------------------------------------------------------------

  /** What the filed plugins of the given names reach. */
  ghost function ReachNamed<N>(r: Registry<N>, names: seq<string>): (region: set<N>)
    requires Wf(r) && forall k :: k in names ==> k in r.deps
    ensures region <= r.edges.Keys
    decreases |names|
  {
    if names == [] then {} else ReachFrom(r, r.deps[names[0]]) + ReachNamed(r, names[1..])
  }

  lemma {:induction false} ReachNamedIsUnion<N>(r: Registry<N>, names: seq<string>)
    requires Wf(r) && forall k :: k in names ==> k in r.deps
    ensures forall k :: k in names ==> ReachFrom(r, r.deps[k]) <= ReachNamed(r, names)
    ensures forall n :: n in ReachNamed(r, names) ==> exists k :: k in names && n in ReachFrom(r, r.deps[k])
    decreases |names|
  {
    hide ReachFrom;
    if names != [] {
      ReachNamedIsUnion(r, names[1..]);
      forall n | n in ReachNamed(r, names) ensures exists k :: k in names && n in ReachFrom(r, r.deps[k]) {
        if n !in ReachFrom(r, r.deps[names[0]]) {
          var k :| k in names[1..] && n in ReachFrom(r, r.deps[k]);
          assert k in names;
        }
      }
    }
  }

  /** Between two top-level visits nobody is entered but not started. */
  ghost predicate Settled<N>(r: Registry<N>, s: Progress<N>)
    requires Wf(r)
  {
    Consistent(r, s, 0) && forall n :: n in s.invoked ==> n in s.started
  }

  lemma {:induction false} StartAllWalks<N>(r: Registry<N>, s: Progress<N>, names: seq<string>)
    requires Wf(r) && (forall k :: k in names ==> k in r.deps) && Settled(r, s)
    ensures var (s', result) := StartAll(r, s, names);
            Walked(r, s, s', result, ReachNamed(r, names))
            && (result == Started ==> forall k :: k in names ==> r.deps[k] in s'.started)
    decreases |names|
  {
    if names != [] {
      var a := r.deps[names[0]];
      var (s1, result) := StartNode(r, s, a);
      StartNodeWalks(r, s, a);
      if result == Started {
        StartAllWalks(r, s1, names[1..]);
        var (s2, result2) := StartAll(r, s1, names[1..]);
        WalkedTwice(r, s, s1, s2, result2, ReachFrom(r, a), ReachNamed(r, names[1..]));
      }
    }
  }

  lemma {:induction false} StartAllAppend<N>(r: Registry<N>, s: Progress<N>, names: seq<string>, k: string)
    requires Wf(r) && (forall m :: m in names ==> m in r.deps) && k in r.deps
    ensures var (s1, result) := StartAll(r, s, names);
            StartAll(r, s, names + [k]) == if result == Started then StartNode(r, s1, r.deps[k]) else (s1, result)
    decreases |names|
  {
    if names == [] {
      assert (names + [k])[0] == k && (names + [k])[1..] == [];
    } else {
      assert (names + [k])[0] == names[0] && (names + [k])[1..] == names[1..] + [k];
      StartAllAppend(r, StartNode(r, s, r.deps[names[0]]).0, names[1..], k);
    }
  }

  /** After a failure, the names that would have come next make no difference. */
  lemma {:induction false} StartAllStops<N>(r: Registry<N>, s: Progress<N>, names: seq<string>, rest: seq<string>)
    requires Wf(r) && (forall m :: m in names ==> m in r.deps) && (forall m :: m in rest ==> m in r.deps)
    requires StartAll(r, s, names).1 != Started
    ensures StartAll(r, s, names + rest) == StartAll(r, s, names)
    decreases |names|
  {
    assert (names + rest)[0] == names[0] && (names + rest)[1..] == names[1..] + rest;
    var (s1, result) := StartNode(r, s, r.deps[names[0]]);
    if result == Started {
      StartAllStops(r, s1, names[1..], rest);
    }
  }

  lemma ClosedUnderDependencies<N>(r: Registry<N>, order: seq<N>)
    requires Wf(r) && Ordered(r.edges, order)
    ensures forall i, n :: 0 <= i < |order| && n in ReachFrom(r, order[i]) && n != order[i] ==> n in order[..i]
  {
    forall i, n | 0 <= i < |order| && n in ReachFrom(r, order[i]) && n != order[i] ensures n in order[..i] {
      OrderedIsTransitive(r.edges, r.rank, order, i, n);
    }
  }

  lemma AllReached<N>(r: Registry<N>, names: seq<string>, order: seq<N>)
    requires Wf(r) && Ordered(r.edges, order) && (forall k :: k in names ==> k in r.deps && r.deps[k] in order)
    ensures forall n :: n in ReachNamed(r, names) ==> n in order
  {
    hide Ordered;
    ReachNamedIsUnion(r, names);
    forall n | n in ReachNamed(r, names) ensures n in order {
      var k :| k in names && n in ReachFrom(r, r.deps[k]);
      OrderedIsClosed(r.edges, r.rank, order, r.deps[k]);
    }
  }

  /** The start, for any order in which the file is visited. Every plugin is started at most once, and
      only after all that it depends on, directly or not, and no placeholder is. If all goes well, exactly
      the nodes that filed plugins reach have been started. Otherwise there is a reason among those nodes, a
      plugin that does not start or a placeholder, and what has been started is closed under dependencies. */
  lemma StartIsTopological<N>(r: Registry<N>, names: seq<string>)
    requires Wf(r) && forall k :: k in names <==> k in r.deps
    ensures var (s, result) := StartAll(r, Progress({}, []), names); var reachable := ReachNamed(r, names);
      && Ordered(r.edges, s.started)
      && (forall i, n :: 0 <= i < |s.started| && n in ReachFrom(r, s.started[i]) && n != s.started[i] ==>
            n in s.started[..i])
      && (forall n :: n in s.started ==> n in reachable && Holds(r, n))
      && (result == Started ==> forall n :: n in reachable ==> n in s.started)
      && Reason(r, reachable, result)
  {
    hide Wf, ReachFrom, Ordered, Reason, ReachNamed;
    var (s, result) := StartAll(r, Progress({}, []), names);
    NothingYet(r);
    StartAllWalks(r, Progress({}, []), names);
    ClosedUnderDependencies(r, s.started);
    if result == Started {
      AllReached(r, names, s.started);
    }
  }

  lemma NothingYet<N>(r: Registry<N>)
    requires Wf(r)
    ensures Settled(r, Progress({}, []))
  {
  }

  /** Everything starts if and only if every reachable node holds a plugin that does. */
  lemma StartSucceedsIff<N>(r: Registry<N>, names: seq<string>)
    requires Wf(r) && forall k :: k in names <==> k in r.deps
    ensures StartAll(r, Progress({}, []), names).1 == Started <==> forall n :: n in ReachNamed(r, names) ==> Holds(r, n)
  {
    hide Wf, ReachFrom, Ordered;
    StartIsTopological(r, names);
  }

  // ---- how it fails ---------------------------------------------------------------------------

  /** All paths down from a, depth first: each node after what it points to. */
  ghost function Leave<N>(r: Registry<N>, a: N): (v: seq<N>)
    requires Wf(r) && a in r.edges
    ensures forall n :: n in v ==> n in r.edges
    decreases r.rank[a] + 1, 0
  {
    LeaveList(r, r.edges[a], r.rank[a]) + [a]
  }

  ghost function LeaveList<N>(r: Registry<N>, l: seq<N>, bound: nat): (v: seq<N>)
    requires Wf(r) && forall c :: c in l ==> c in r.edges && r.rank[c] < bound
    ensures forall n :: n in v ==> n in r.edges
    decreases bound, |l|
  {
    if l == [] then [] else Leave(r, l[0]) + LeaveList(r, l[1..], bound)
  }

  ghost function LeaveNamed<N>(r: Registry<N>, names: seq<string>): (v: seq<N>)
    requires Wf(r) && forall k :: k in names ==> k in r.deps
    ensures forall n :: n in v ==> n in r.edges
  {
    if names == [] then [] else Leave(r, r.deps[names[0]]) + LeaveNamed(r, names[1..])
  }

  /** What the first node in v makes of the start that does not hold a plugin that starts. */
  ghost function FirstFailure<N>(r: Registry<N>, v: seq<N>): StartResult
    requires forall n :: n in v ==> n in r.plugins
  {
    if v == [] then Started
    else if Holds(r, v[0]) then FirstFailure(r, v[1..])
    else if r.plugins[v[0]].None? then StartPanics
    else FailedToStart
  }

  lemma {:induction false} FailureAppend<N>(r: Registry<N>, u: seq<N>, v: seq<N>)
    requires (forall n :: n in u ==> n in r.plugins) && (forall n :: n in v ==> n in r.plugins)
    ensures FirstFailure(r, u + v) == if FirstFailure(r, u) == Started then FirstFailure(r, v) else FirstFailure(r, u)
  {
    if u == [] {
      assert u + v == v;
    } else {
      assert (u + v)[1..] == u[1..] + v;
      FailureAppend(r, u[1..], v);
    }
  }

  lemma {:induction false} NoFailure<N>(r: Registry<N>, v: seq<N>)
    requires (forall n :: n in v ==> n in r.plugins) && forall n :: n in v ==> Holds(r, n)
    ensures FirstFailure(r, v) == Started
  {
    if v != [] {
      NoFailure(r, v[1..]);
    }
  }

  lemma {:induction false} LeaveIsReach<N>(r: Registry<N>, a: N)
    requires Wf(r) && a in r.edges
    ensures forall n :: n in Leave(r, a) <==> n in ReachFrom(r, a)
    decreases r.rank[a] + 1, 0
  {
    LeaveListIsReach(r, r.edges[a], r.rank[a]);
  }

  lemma {:induction false} LeaveListIsReach<N>(r: Registry<N>, l: seq<N>, bound: nat)
    requires Wf(r) && forall c :: c in l ==> c in r.edges && r.rank[c] < bound
    ensures forall n :: n in LeaveList(r, l, bound) <==> n in ReachAll(r.edges, r.rank, l, bound)
    decreases bound, |l|
  {
    if l != [] {
      LeaveIsReach(r, l[0]);
      LeaveListIsReach(r, l[1..], bound);
    }
  }

  /** What has been entered before is not the reason for a failure any more. */
  lemma DoneHolds<N>(r: Registry<N>, s: Progress<N>, a: N)
    requires Wf(r) && a in s.started && Ordered(r.edges, s.started) && forall n :: n in s.started ==> Holds(r, n)
    requires a in r.edges
    ensures FirstFailure(r, Leave(r, a)) == Started
  {
    hide Ordered, ReachFrom, Wf;
    OrderedReach(r, s.started, a);
    LeaveIsReach(r, a);
    NoFailure(r, Leave(r, a));
  }

  lemma OrderedReach<N>(r: Registry<N>, order: seq<N>, a: N)
    requires Wf(r) && Ordered(r.edges, order) && a in order && a in r.edges
    ensures forall n :: n in ReachFrom(r, a) ==> n in order
  {
    OrderedIsClosed(r.edges, r.rank, order, a);
  }

  lemma {:induction false} StartNodeFails<N>(r: Registry<N>, s: Progress<N>, a: N)
    requires Wf(r) && a in r.edges && Consistent(r, s, r.rank[a] + 1) && forall n :: n in s.started ==> Holds(r, n)
    ensures StartNode(r, s, a).1 == FirstFailure(r, Leave(r, a))
    decreases r.rank[a] + 1, 0
  {
    if a in s.invoked {
      DoneHolds(r, s, a);
    } else {
      StartListFails(r, s.(invoked := s.invoked + {a}), r.edges[a], r.rank[a]);
      FailureAppend(r, LeaveList(r, r.edges[a], r.rank[a]), [a]);
    }
  }

  lemma {:induction false} StartListFails<N>(r: Registry<N>, s: Progress<N>, l: seq<N>, bound: nat)
    requires Wf(r) && (forall c :: c in l ==> c in r.edges && r.rank[c] < bound) && Consistent(r, s, bound)
    requires forall n :: n in s.started ==> Holds(r, n)
    ensures StartList(r, s, l, bound).1 == FirstFailure(r, LeaveList(r, l, bound))
    decreases bound, |l|
  {
    if l != [] {
      hide Ordered, ReachFrom;
      StartNodeFails(r, s, l[0]);
      FailureAppend(r, Leave(r, l[0]), LeaveList(r, l[1..], bound));
      var (s1, result) := StartNode(r, s, l[0]);
      if result == Started {
        StartNodeWalks(r, s, l[0]);
        StaysConsistent(r, s, s1, ReachFrom(r, l[0]), bound);
        StartListFails(r, s1, l[1..], bound);
      }
    }
  }

  lemma {:induction false} StartAllFails<N>(r: Registry<N>, s: Progress<N>, names: seq<string>)
    requires Wf(r) && (forall k :: k in names ==> k in r.deps) && Settled(r, s)
             && forall n :: n in s.started ==> Holds(r, n)
    ensures StartAll(r, s, names).1 == FirstFailure(r, LeaveNamed(r, names))
    decreases |names|
  {
    if names != [] {
      hide Ordered, ReachFrom;
      var a := r.deps[names[0]];
      StartNodeFails(r, s, a);
      FailureAppend(r, Leave(r, a), LeaveNamed(r, names[1..]));
      var (s1, result) := StartNode(r, s, a);
      if result == Started {
        StartNodeWalks(r, s, a);
        StartAllFails(r, s1, names[1..]);
      }
    }
  }

  /** How the start ends is decided by the first node, in the order in which the walk leaves them, that does
      not hold a plugin that starts: a panic if it is a placeholder, else a failure. */
  lemma StartFailsAtFirst<N>(r: Registry<N>, names: seq<string>)
    requires Wf(r) && forall k :: k in names <==> k in r.deps
    ensures StartAll(r, Progress({}, []), names).1 == FirstFailure(r, LeaveNamed(r, names))
  {
    hide Wf, Ordered;
    NothingYet(r);
    StartAllFails(r, Progress({}, []), names);
  }
}
