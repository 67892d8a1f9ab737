/** The plugin registry as a value, and what adding a plugin does to it step by step. `N` stands for
    node identities (pointers). */
module PluginRegistry {
  import opened Options
  import opened DependencyGraph

  /** `dependsOn` is absent for a plugin that cannot have dependencies; `starts` says whether its Start
      succeeds. */
  datatype Plugin = Plugin(name: string, dependsOn: Option<seq<string>>, starts: bool)

  /** A node without plugin is a placeholder. `rank` only records why there is no cycle. */
  datatype Registry<N(==)> = Registry(
    deps: map<string, N>,
    plugins: map<N, Option<Plugin>>,
    edges: Graph<N>,
    rank: map<N, nat>)

  datatype AddResult = Added | AlreadyAdded | Cyclical | AddPanics

  ghost function NamesIn<N>(plugins: map<N, Option<Plugin>>): (names: map<N, Option<string>>)
    ensures names.Keys == plugins.Keys
  {
    map n | n in plugins :: if plugins[n].None? then None else Some(plugins[n].value.name)
  }

  /** The pointers have no cycle, placeholders are leaves, and plugins are filed by their names. */
  ghost predicate Wf<N>(r: Registry<N>) {
    && Ranked(r.edges, r.rank)
    && r.plugins.Keys == r.edges.Keys
    && (forall n :: n in r.plugins && r.plugins[n].None? ==> r.edges[n] == [])
    && (forall k :: k in r.deps ==> r.deps[k] in r.edges
                                    && (r.plugins[r.deps[k]].Some? ==> r.plugins[r.deps[k]].value.name == k))
  }

  /** Every node is filed: no addition has been rejected yet. */
  ghost predicate Intact<N>(r: Registry<N>) {
    forall n :: n in r.edges ==> exists k :: k in r.deps && r.deps[k] == n
  }

  ghost function ReachFrom<N>(r: Registry<N>, n: N): set<N>
    requires Wf(r) && n in r.edges
  {
    Reach(r.edges, r.rank, n)
  }

  ghost function Search<N>(r: Registry<N>, n: N, name: string): Outcome<N>
    requires Wf(r) && n in r.edges
  {
    Find(r.edges, r.rank, NamesIn(r.plugins), n, name)
  }

  /** The search among the dependencies of node a from the i-th on. */
  ghost function SearchRest<N>(r: Registry<N>, a: N, i: nat, name: string): Outcome<N>
    requires Wf(r) && a in r.edges && i <= |r.edges[a]|
  {
    FindAll(r.edges, r.rank, NamesIn(r.plugins), r.edges[a][i..], r.rank[a], name)
  }

  lemma SearchBegins<N>(r: Registry<N>, a: N, name: string)
    requires Wf(r) && a in r.edges
    ensures a in r.plugins && a in r.rank
    ensures Search(r, a, name)
            == if r.plugins[a].None? then Panics
               else if r.plugins[a].value.name == name then Found(a)
               else SearchRest(r, a, 0, name)
  {
    assert r.edges[a][0..] == r.edges[a];
  }

  lemma SearchGoesOn<N>(r: Registry<N>, a: N, i: nat, name: string)
    requires Wf(r) && a in r.edges && i < |r.edges[a]|
    ensures var dep := r.edges[a][i];
            && dep in r.edges && dep in r.rank && a in r.rank && r.rank[dep] < r.rank[a]
            && SearchRest(r, a, i, name)
               == if Search(r, dep, name) != NotFound then Search(r, dep, name) else SearchRest(r, a, i + 1, name)
  {
    assert r.edges[a][i..][1..] == r.edges[a][i + 1..];
  }

  lemma SearchEnds<N>(r: Registry<N>, a: N, name: string)
    requires Wf(r) && a in r.edges
    ensures SearchRest(r, a, |r.edges[a]|, name) == NotFound
  {
  }

  lemma SearchIsReach<N>(r: Registry<N>, n: N, name: string)
    requires Wf(r) && n in r.edges
    ensures FindMeans(NamesIn(r.plugins), ReachFrom(r, n), name, Search(r, n, name))
  {
    FindIsReach(r.edges, r.rank, NamesIn(r.plugins), n, name);
  }

  lemma FiledAreNodes<N>(r: Registry<N>)
    requires Wf(r)
    ensures forall k :: k in r.deps ==> r.deps[k] in r.edges && r.deps[k] in r.plugins
  {
  }

  // ---- the elementary changes -----------------------------------------------------------------

  ghost function WithPlaceholder<N>(r: Registry<N>, name: string, n: N): Registry<N> {
    Registry(r.deps[name := n], r.plugins[n := None], r.edges[n := []], r.rank[n := 0])
  }

  ghost function WithPlugin<N>(r: Registry<N>, n: N, plugin: Plugin): Registry<N> {
    r.(plugins := r.plugins[n := Some(plugin)])
  }

  ghost function WithEdge<N>(r: Registry<N>, p: N, d: N): Registry<N>
    requires Wf(r) && p in r.edges && d in r.edges
  {
    r.(edges := r.edges[p := r.edges[p] + [d]], rank := Lifted(r.edges, r.rank, p, d))
  }

  /** The dependency that closes the cycle loses its edges, and the new plugin its file entry. */
  ghost function Rejected<N>(r: Registry<N>, name: string, d: N): Registry<N> {
    r.(deps := r.deps - {name}, edges := r.edges[d := []])
  }

  lemma PlaceholderKeeps<N>(r: Registry<N>, name: string, n: N)
    requires Wf(r) && name !in r.deps && n !in r.edges
    ensures Wf(WithPlaceholder(r, name, n))
    ensures Intact(r) ==> Intact(WithPlaceholder(r, name, n))
  {
    LeafKeepsRanked(r.edges, r.rank, n);
    var r' := WithPlaceholder(r, name, n);
    if Intact(r) {
      forall m | m in r'.edges ensures exists k :: k in r'.deps && r'.deps[k] == m {
        if m == n {
          assert r'.deps[name] == m;
        } else {
          var k :| k in r.deps && r.deps[k] == m;
          assert r'.deps[k] == m;
        }
      }
    }
  }

  lemma PluginKeeps<N>(r: Registry<N>, name: string, plugin: Plugin)
    requires Wf(r) && name in r.deps && r.plugins[r.deps[name]].None? && plugin.name == name
    requires forall k :: k in r.deps && k != name ==> r.deps[k] != r.deps[name]
    ensures Wf(WithPlugin(r, r.deps[name], plugin))
    ensures Intact(r) ==> Intact(WithPlugin(r, r.deps[name], plugin))
  {
  }

  lemma EdgeKeeps<N>(r: Registry<N>, p: N, d: N)
    requires Wf(r) && p in r.edges && d in r.edges && r.plugins[p].Some? && p !in ReachFrom(r, d)
    ensures Wf(WithEdge(r, p, d))
    ensures Intact(r) ==> Intact(WithEdge(r, p, d))
  {
    EdgeKeepsRanked(r.edges, r.rank, p, d);
  }

  lemma RejectionKeeps<N>(r: Registry<N>, name: string, d: N)
    requires Wf(r) && d in r.edges
    ensures Wf(Rejected(r, name, d))
  {
    CutKeepsRanked(r.edges, r.rank, d);
  }

  // ---- adding one plugin ----------------------------------------------------------------------

  /** One round of the loop over the dependencies of the plugin `name`, which is filed at node p. */
  ghost predicate AddsDependency<N>(r: Registry<N>, name: string, p: N, depName: string, r': Registry<N>,
                                    result: AddResult)
    requires Wf(r) && p in r.edges
  {
    if depName !in r.deps then
      // a new placeholder, which leads nowhere
      && result == Added
      && depName in r'.deps && r'.deps[depName] !in r.edges
      && Wf(WithPlaceholder(r, depName, r'.deps[depName]))
      && r' == WithEdge(WithPlaceholder(r, depName, r'.deps[depName]), p, r'.deps[depName])
    else
      var d := r.deps[depName];
      if r.plugins[d].None? then result == Added && r' == WithEdge(r, p, d)
      else match Search(r, d, name)
        case Found(_) => result == Cyclical && r' == Rejected(r, name, d)
        case Panics => result == AddPanics && r' == r
        case NotFound => result == Added && r' == WithEdge(r, p, d)
  }

  lemma RoundByPlaceholder<N>(r: Registry<N>, name: string, p: N, depName: string, n: N)
    requires Wf(r) && p in r.edges && depName !in r.deps && n !in r.edges
    ensures Wf(WithPlaceholder(r, depName, n))
    ensures AddsDependency(r, name, p, depName, WithEdge(WithPlaceholder(r, depName, n), p, n), Added)
  {
    PlaceholderKeeps(r, depName, n);
  }

  /** What a round does with a dependency that is filed, by the outcome of the search. */
  lemma RoundBySearch<N>(r: Registry<N>, name: string, p: N, depName: string, found: Outcome<N>)
    requires Wf(r) && p in r.edges && depName in r.deps
    requires found == if r.plugins[r.deps[depName]].None? then NotFound else Search(r, r.deps[depName], name)
    ensures found.Found? ==> AddsDependency(r, name, p, depName, Rejected(r, name, r.deps[depName]), Cyclical)
    ensures found.Panics? ==> AddsDependency(r, name, p, depName, r, AddPanics)
    ensures found.NotFound? ==> AddsDependency(r, name, p, depName, WithEdge(r, p, r.deps[depName]), Added)
  {
  }

  /** What every round starts from. */
  ghost predicate Adding<N>(r: Registry<N>, name: string, p: N) {
    Wf(r) && FiledOnce(r) && name in r.deps && r.deps[name] == p && r.plugins[p].Some?
  }

  ghost predicate FiledOnce<N>(r: Registry<N>) {
    forall a, b :: a in r.deps && b in r.deps && a != b ==> r.deps[a] != r.deps[b]
  }

  lemma AddingIsWf<N>(r: Registry<N>, name: string, p: N)
    requires Adding(r, name, p)
    ensures Wf(r) && p in r.edges
  {
  }

  /** The name closes a cycle through node p. */
  ghost predicate Closes<N>(r: Registry<N>, p: N, depName: string)
    requires Wf(r)
  {
    depName in r.deps && p in ReachFrom(r, r.deps[depName])
  }

  /** A placeholder is a leaf. */
  lemma LeafReach<N>(r: Registry<N>, d: N)
    requires Wf(r) && d in r.edges && r.edges[d] == []
    ensures ReachFrom(r, d) == {d}
  {
    assert ReachAll(r.edges, r.rank, r.edges[d], r.rank[d]) == {};
  }

  /** What the search below a dependency says about a cycle: if it finds nothing there is none; if it
      finds the name, there is one, as long as the file is intact. */
  lemma SearchTells<N>(r: Registry<N>, name: string, p: N, d: N)
    requires Adding(r, name, p) && d in r.edges
    ensures Search(r, d, name).NotFound? ==> p !in ReachFrom(r, d)
    ensures Search(r, d, name).Found? && Intact(r) ==> p in ReachFrom(r, d)
    ensures Search(r, d, name).Panics? ==> exists n :: n in ReachFrom(r, d) && r.plugins[n] == None
  {
    var names := NamesIn(r.plugins);
    SearchIsReach(r, d, name);
    assert names[p] == Some(name);
    if Search(r, d, name).Found? && Intact(r) {
      var n := Search(r, d, name).node;
      assert names[n] == Some(name);
      var k :| k in r.deps && r.deps[k] == n;
      assert k == name;
    }
    if Search(r, d, name).Panics? {
      var n :| n in ReachFrom(r, d) && names[n] == None;
      assert ReachFrom(r, d) <= r.edges.Keys;
      assert r.plugins[n] == None;
    }
  }

  /** What edges and leaves leave alone. */
  lemma PlaceholderFiled<N>(r: Registry<N>, name: string, p: N, depName: string, n: N)
    requires Adding(r, name, p) && depName !in r.deps && n !in r.edges
    ensures var r1 := WithPlaceholder(r, depName, n);
            FiledOnce(r1) && name in r1.deps && r1.deps[name] == p && r1.plugins[p].Some? && p in r1.edges
            && n in r1.edges && p != n
            && r1.edges[n] == []
  {
    hide Ranked;
  }

  lemma EdgeFiled<N>(r: Registry<N>, name: string, p: N, d: N)
    requires Wf(r) && FiledOnce(r) && name in r.deps && r.deps[name] == p && r.plugins[p].Some? && d in r.edges
    requires Wf(WithEdge(r, p, d))
    ensures Adding(WithEdge(r, p, d), name, p)
  {
    hide Wf, Lifted;
  }

  lemma NewPlaceholderRound<N>(r: Registry<N>, name: string, p: N, depName: string, r': Registry<N>)
    requires Adding(r, name, p) && depName !in r.deps
    requires AddsDependency(r, name, p, depName, r', Added)
    ensures Adding(r', name, p) && (Intact(r) ==> Intact(r'))
  {
    var n := r'.deps[depName];
    var r1 := WithPlaceholder(r, depName, n);
    hide Intact, FiledOnce, ReachFrom, Search, Rejected, Lifted, Ranked;
    PlaceholderKeeps(r, depName, n);
    PlaceholderFiled(r, name, p, depName, n);
    LeafReach(r1, n);
    EdgeKeeps(r1, p, n);
    EdgeFiled(r1, name, p, n);
  }

  lemma FiledRound<N>(r: Registry<N>, name: string, p: N, depName: string)
    requires Adding(r, name, p) && depName in r.deps && p !in ReachFrom(r, r.deps[depName])
    ensures Adding(WithEdge(r, p, r.deps[depName]), name, p)
    ensures Intact(r) ==> Intact(WithEdge(r, p, r.deps[depName]))
  {
    EdgeKeeps(r, p, r.deps[depName]);
  }

  /** A round whose dependency is a placeholder. */
  lemma PlaceholderRound<N>(r: Registry<N>, name: string, p: N, depName: string)
    requires Adding(r, name, p) && depName in r.deps && r.plugins[r.deps[depName]].None?
    ensures p !in ReachFrom(r, r.deps[depName])
  {
    LeafReach(r, r.deps[depName]);
  }

  lemma RejectedRound<N>(r: Registry<N>, name: string, p: N, depName: string)
    requires Adding(r, name, p) && depName in r.deps
    ensures var r' := Rejected(r, name, r.deps[depName]); Wf(r') && FiledOnce(r') && name !in r'.deps
  {
    RejectionKeeps(r, name, r.deps[depName]);
  }

  /** What a round comes to, one case each. */
  lemma RoundCases<N>(r: Registry<N>, name: string, p: N, depName: string, r': Registry<N>, result: AddResult)
    requires Adding(r, name, p) && AddsDependency(r, name, p, depName, r', result) && depName in r.deps
    ensures result.Added? ==>
              r' == WithEdge(r, p, r.deps[depName])
              && (r.plugins[r.deps[depName]].None? || Search(r, r.deps[depName], name).NotFound?)
    ensures result.Cyclical? ==> r' == Rejected(r, name, r.deps[depName]) && Search(r, r.deps[depName], name).Found?
    ensures result.AddPanics? ==> r' == r && Search(r, r.deps[depName], name).Panics?
    ensures result != AlreadyAdded
  {
    hide Search, WithEdge, Rejected, WithPlaceholder, Ranked;
  }

  /** A round keeps the registry free of cycles. In an intact one it rejects exactly when the new edge
      would close a cycle. */
  lemma RoundKeeps<N>(r: Registry<N>, name: string, p: N, depName: string, r': Registry<N>, result: AddResult)
    requires Adding(r, name, p) && AddsDependency(r, name, p, depName, r', result)
    ensures Wf(r') && FiledOnce(r') && result != AlreadyAdded
    ensures result.Added? ==> Adding(r', name, p) && !Closes(r, p, depName) && (Intact(r) ==> Intact(r'))
    ensures result.Cyclical? ==> name !in r'.deps && (Intact(r) ==> Closes(r, p, depName))
    ensures result.AddPanics? ==>
              depName in r.deps && exists n :: n in ReachFrom(r, r.deps[depName]) && r.plugins[n] == None
  {
    hide Wf, FiledOnce, Intact, ReachFrom, Search, WithEdge, WithPlaceholder, Rejected;
    AddingIsWf(r, name, p);
    FiledAreNodes(r);
    if depName !in r.deps {
      NewPlaceholderRound(r, name, p, depName, r');
    } else {
      var d := r.deps[depName];
      RoundCases(r, name, p, depName, r', result);
      if result.Added? {
        if r.plugins[d].None? { PlaceholderRound(r, name, p, depName); } else { SearchTells(r, name, p, d); }
        FiledRound(r, name, p, depName);
      } else {
        SearchTells(r, name, p, d);
        if result.Cyclical? { RejectedRound(r, name, p, depName); }
      }
    }
  }

  // ---- the whole addition ---------------------------------------------------------------------

  function DependsOn(plugin: Plugin): seq<string> {
    if plugin.dependsOn.None? then [] else plugin.dependsOn.value
  }

  /** The plugin is put into its placeholder, or else into a new node filed under its name. */
  ghost predicate Enters<N>(r: Registry<N>, plugin: Plugin, r1: Registry<N>) {
    && plugin.name in r1.deps
    && var p := r1.deps[plugin.name];
       if plugin.name in r.deps then r1 == WithPlugin(r, p, plugin)
       else p !in r.edges && r1 == WithPlugin(WithPlaceholder(r, plugin.name, p), p, plugin)
  }

  ghost predicate Filled<N>(r: Registry<N>, name: string)
    requires Wf(r)
  {
    name in r.deps && r.plugins[r.deps[name]].Some?
  }

  /** The first n rounds all add their edge; `trace` holds the registry before and after each. */
  ghost predicate AllAdded<N>(name: string, p: N, depNames: seq<string>, trace: seq<Registry<N>>, n: nat)
    requires n < |trace| && n <= |depNames|
  {
    n == 0 ||
    (&& AllAdded(name, p, depNames, trace, n - 1)
     && Adding(trace[n - 1], name, p)
     && AddsDependency(trace[n - 1], name, p, depNames[n - 1], trace[n], Added))
  }

  lemma {:induction false} AllAddedLonger<N>(name: string, p: N, depNames: seq<string>, trace: seq<Registry<N>>,
                                             longer: seq<Registry<N>>, n: nat)
    requires n < |trace| && n <= |depNames| && AllAdded(name, p, depNames, trace, n) && trace <= longer
    ensures AllAdded(name, p, depNames, longer, n)
  {
    hide AddsDependency, Adding;
    if n > 0 {
      AllAddedLonger(name, p, depNames, trace, longer, n - 1);
    }
  }

  lemma AllAddedGrows<N>(name: string, p: N, depNames: seq<string>, trace: seq<Registry<N>>, next: Registry<N>,
                         result: AddResult)
    requires 0 < |trace| <= |depNames| && AllAdded(name, p, depNames, trace, |trace| - 1)
    requires Adding(trace[|trace| - 1], name, p)
    requires AddsDependency(trace[|trace| - 1], name, p, depNames[|trace| - 1], next, result)
    ensures AllAdded(name, p, depNames, trace + [next], |trace| - 1)
    ensures result == Added ==> AllAdded(name, p, depNames, trace + [next], |trace|)
  {
    hide AddsDependency, Adding;
    AllAddedLonger(name, p, depNames, trace, trace + [next], |trace| - 1);
  }

  /** `trace` holds the registry after the plugin has entered and after each round of the loop, of which
      only the last can be rejected or panic. */
  ghost predicate AddsPlugin<N>(r: Registry<N>, plugin: Plugin, trace: seq<Registry<N>>, result: AddResult)
    requires Wf(r)
  {
    if Filled(r, plugin.name) then trace == [r] && result == AlreadyAdded
    else
      && 0 < |trace| <= |DependsOn(plugin)| + 1
      && Enters(r, plugin, trace[0])
      && var p := trace[0].deps[plugin.name];
         if result == Added then
           && |trace| == |DependsOn(plugin)| + 1
           && AllAdded(plugin.name, p, DependsOn(plugin), trace, |trace| - 1)
         else
           && result != AlreadyAdded && |trace| >= 2
           && var last := |trace| - 2;
              && AllAdded(plugin.name, p, DependsOn(plugin), trace, last)
              && Adding(trace[last], plugin.name, p)
              && AddsDependency(trace[last], plugin.name, p, DependsOn(plugin)[last], trace[last + 1], result)
  }

  lemma NoAddition<N>(r: Registry<N>, plugin: Plugin)
    requires Wf(r) && plugin.name in r.deps && r.deps[plugin.name] in r.plugins && r.plugins[r.deps[plugin.name]].Some?
    ensures AddsPlugin(r, plugin, [r], AlreadyAdded)
  {
  }

  lemma FinishedAddition<N>(r: Registry<N>, plugin: Plugin, trace: seq<Registry<N>>)
    requires Wf(r) && !Filled(r, plugin.name) && |trace| == |DependsOn(plugin)| + 1 && Enters(r, plugin, trace[0])
    requires AllAdded(plugin.name, trace[0].deps[plugin.name], DependsOn(plugin), trace, |trace| - 1)
    ensures AddsPlugin(r, plugin, trace, Added)
  {
  }

  lemma StoppedAddition<N>(r: Registry<N>, plugin: Plugin, trace: seq<Registry<N>>, last: nat, result: AddResult)
    requires Wf(r) && !Filled(r, plugin.name) && last + 2 == |trace| <= |DependsOn(plugin)| + 1
             && Enters(r, plugin, trace[0])
    requires result == Cyclical || result == AddPanics
    requires AllAdded(plugin.name, trace[0].deps[plugin.name], DependsOn(plugin), trace, last)
    requires Adding(trace[last], plugin.name, trace[0].deps[plugin.name])
    requires AddsDependency(trace[last], plugin.name, trace[0].deps[plugin.name], DependsOn(plugin)[last],
                            trace[last + 1], result)
    ensures AddsPlugin(r, plugin, trace, result)
  {
    hide AddsDependency, Adding, Enters, Filled, AllAdded;
  }

  lemma EnteringPlaceholderKeeps<N>(r: Registry<N>, plugin: Plugin, p: N)
    requires Wf(r) && FiledOnce(r) && plugin.name !in r.deps && p !in r.edges
    ensures var r1 := WithPlaceholder(r, plugin.name, p);
            Wf(r1) && FiledOnce(r1) && r1.plugins[p] == None && (Intact(r) ==> Intact(r1))
  {
    hide Ranked, Intact;
    PlaceholderKeeps(r, plugin.name, p);
  }

  lemma FillingKeeps<N>(r: Registry<N>, plugin: Plugin)
    requires Wf(r) && FiledOnce(r) && plugin.name in r.deps && r.plugins[r.deps[plugin.name]].None?
    ensures Adding(WithPlugin(r, r.deps[plugin.name], plugin), plugin.name, r.deps[plugin.name])
    ensures Intact(r) ==> Intact(WithPlugin(r, r.deps[plugin.name], plugin))
  {
    PluginKeeps(r, plugin.name, plugin);
  }

  lemma EnteringKeeps<N>(r: Registry<N>, plugin: Plugin, r1: Registry<N>)
    requires Wf(r) && FiledOnce(r) && !Filled(r, plugin.name) && Enters(r, plugin, r1)
    ensures plugin.name in r1.deps && Adding(r1, plugin.name, r1.deps[plugin.name]) && (Intact(r) ==> Intact(r1))
  {
    hide Wf, FiledOnce, Intact, Adding;
    FiledAreNodes(r);
    if plugin.name !in r.deps {
      EnteringPlaceholderKeeps(r, plugin, r1.deps[plugin.name]);
      FillingKeeps(WithPlaceholder(r, plugin.name, r1.deps[plugin.name]), plugin);
    } else {
      FillingKeeps(r, plugin);
    }
  }

  /** The plugin has been entered into r at node p, and i rounds have added their edge. */
  ghost predicate SoFar<N>(r: Registry<N>, plugin: Plugin, p: N, trace: seq<Registry<N>>, i: nat)
    requires Wf(r)
  {
    && !Filled(r, plugin.name)
    && i <= |DependsOn(plugin)| && |trace| == i + 1
    && Enters(r, plugin, trace[0]) && trace[0].deps[plugin.name] == p
    && AllAdded(plugin.name, p, DependsOn(plugin), trace, i)
    && Adding(trace[i], plugin.name, p)
  }

  lemma SoFarBegins<N>(r: Registry<N>, plugin: Plugin, r1: Registry<N>)
    requires Wf(r) && FiledOnce(r) && !Filled(r, plugin.name) && Enters(r, plugin, r1)
    ensures SoFar(r, plugin, r1.deps[plugin.name], [r1], 0)
  {
    hide FiledOnce, Filled, Adding, Wf, WithPlugin, WithPlaceholder;
    EnteringKeeps(r, plugin, r1);
  }

  lemma SoFarIsWf<N>(r: Registry<N>, plugin: Plugin, p: N, trace: seq<Registry<N>>, i: nat)
    requires Wf(r) && SoFar(r, plugin, p, trace, i)
    ensures |trace| == i + 1 && Wf(trace[i]) && p in trace[i].edges
  {
    hide Filled, Enters, Wf, AllAdded;
    AddingIsWf(trace[i], plugin.name, p);
  }

  lemma SoFarGrows<N>(r: Registry<N>, plugin: Plugin, p: N, trace: seq<Registry<N>>, i: nat, next: Registry<N>,
                      result: AddResult)
    requires Wf(r) && SoFar(r, plugin, p, trace, i) && i < |DependsOn(plugin)|
    requires Wf(trace[i]) && p in trace[i].edges
             && AddsDependency(trace[i], plugin.name, p, DependsOn(plugin)[i], next, result)
    ensures result == Added ==> SoFar(r, plugin, p, trace + [next], i + 1)
    ensures result != Added ==> AddsPlugin(r, plugin, trace + [next], result)
  {
    hide AddsDependency, Adding, Enters, Filled, Wf, AllAdded, AddsPlugin, FiledOnce, Intact, Closes;
    RoundKeeps(trace[i], plugin.name, p, DependsOn(plugin)[i], next, result);
    AllAddedGrows(plugin.name, p, DependsOn(plugin), trace, next, result);
    if result != Added {
      StoppedAddition(r, plugin, trace + [next], i, result);
    }
  }

  lemma SoFarEnds<N>(r: Registry<N>, plugin: Plugin, p: N, trace: seq<Registry<N>>)
    requires Wf(r) && SoFar(r, plugin, p, trace, |DependsOn(plugin)|)
    ensures AddsPlugin(r, plugin, trace, Added)
  {
    hide Adding, Enters, Filled, Wf, AllAdded, AddsPlugin;
    FinishedAddition(r, plugin, trace);
  }

  lemma {:induction false} RoundsKeep<N>(name: string, p: N, depNames: seq<string>, trace: seq<Registry<N>>, n: nat)
    requires n < |trace| && n <= |depNames| && AllAdded(name, p, depNames, trace, n)
    requires Adding(trace[0], name, p)
    ensures Adding(trace[n], name, p) && (Intact(trace[0]) ==> Intact(trace[n]))
  {
    hide AddsDependency, Adding, Intact;
    if n > 0 {
      RoundsKeep(name, p, depNames, trace, n - 1);
      RoundKeeps(trace[n - 1], name, p, depNames[n - 1], trace[n], Added);
    }
  }

  /** Whatever comes of an addition, the pointer graph has no cycle afterwards. */
  lemma AdditionKeepsAcyclic<N>(r: Registry<N>, plugin: Plugin, trace: seq<Registry<N>>, result: AddResult)
    requires Wf(r) && FiledOnce(r) && AddsPlugin(r, plugin, trace, result)
    ensures var r' := trace[|trace| - 1];
            && Wf(r') && FiledOnce(r')
            && (Intact(r) && (result.Added? || result.AlreadyAdded?) ==> Intact(r'))
  {
    hide AddsDependency, Intact, Enters, FiledOnce, Wf;
    if !Filled(r, plugin.name) {
      EnteringKeeps(r, plugin, trace[0]);
      var p, last := trace[0].deps[plugin.name], |trace| - 2;
      if result == Added {
        RoundsKeep(plugin.name, p, DependsOn(plugin), trace, |trace| - 1);
      } else {
        RoundKeeps(trace[last], plugin.name, p, DependsOn(plugin)[last], trace[last + 1], result);
      }
    }
  }

  // ---- when an addition is rejected -----------------------------------------------------------

  /** The plugin depends on itself, or on something from which its own placeholder can be reached. */
  ghost predicate WouldClose<N>(r: Registry<N>, name: string, depName: string)
    requires Wf(r)
  {
    depName == name || (name in r.deps && Closes(r, r.deps[name], depName))
  }

  /** During an addition to r at node p only p has got new edges, and new nodes are leaves. */
  ghost predicate SameBut<N>(r: Registry<N>, now: Registry<N>, p: N) {
    && (forall n :: n in r.edges && n != p ==> n in now.edges && now.edges[n] == r.edges[n])
    && (forall n :: n in now.edges && n !in r.edges && n != p ==> now.edges[n] == [])
    && (forall k :: k in r.deps ==> k in now.deps && now.deps[k] == r.deps[k])
    && (forall k :: k in now.deps && k !in r.deps ==> now.deps[k] !in r.edges)
  }

  lemma EdgeIsSameBut<N>(r: Registry<N>, now: Registry<N>, p: N, d: N)
    requires Wf(now) && SameBut(r, now, p) && p in now.edges && d in now.edges
    ensures SameBut(r, WithEdge(now, p, d), p)
  {
  }

  lemma PlaceholderIsSameBut<N>(r: Registry<N>, now: Registry<N>, p: N, name: string, n: N)
    requires SameBut(r, now, p) && name !in now.deps && n !in now.edges && n != p
    requires forall m :: m in r.edges ==> m in now.edges
    ensures SameBut(r, WithPlaceholder(now, name, n), p)
  {
  }

  lemma RoundIsSameBut<N>(r: Registry<N>, now: Registry<N>, name: string, p: N, depName: string, next: Registry<N>)
    requires Adding(now, name, p) && SameBut(r, now, p) && AddsDependency(now, name, p, depName, next, Added)
    requires forall n :: n in r.edges ==> n in now.edges
    ensures SameBut(r, next, p) && name in next.deps && next.deps[name] == p
    ensures forall n :: n in r.edges ==> n in next.edges
  {
    if depName !in now.deps {
      var n := next.deps[depName];
      PlaceholderIsSameBut(r, now, p, depName, n);
      EdgeIsSameBut(r, WithPlaceholder(now, depName, n), p, n);
    } else {
      EdgeIsSameBut(r, now, p, now.deps[depName]);
    }
  }

  lemma {:induction false} RoundsAreSameBut<N>(r: Registry<N>, name: string, p: N, depNames: seq<string>,
                                               trace: seq<Registry<N>>, n: nat)
    requires n < |trace| && n <= |depNames| && AllAdded(name, p, depNames, trace, n)
    requires SameBut(r, trace[0], p) && forall m :: m in r.edges ==> m in trace[0].edges
    ensures SameBut(r, trace[n], p) && forall m :: m in r.edges ==> m in trace[n].edges
  {
    hide AddsDependency, Adding, SameBut;
    if n > 0 {
      RoundsAreSameBut(r, name, p, depNames, trace, n - 1);
      RoundIsSameBut(r, trace[n - 1], name, p, depNames[n - 1], trace[n]);
    }
  }

  /** The search during the addition sees the same cycles as the registry before it had in store. */
  lemma ClosesAsBefore<N>(r: Registry<N>, now: Registry<N>, name: string, p: N, depName: string)
    requires Wf(r) && Adding(now, name, p) && SameBut(r, now, p)
    ensures Closes(now, p, depName) <==> WouldClose(r, name, depName)
  {
    if Closes(now, p, depName) && depName != name {
      var d := now.deps[depName];
      if d !in r.edges { LeafReach(now, d); }
      ReachesWithout(r.edges, r.rank, now.edges, now.rank, p, d);
    }
    if WouldClose(r, name, depName) && depName != name {
      var d := r.deps[depName];
      ReachesWithout(now.edges, now.rank, r.edges, r.rank, p, d);
    }
  }

  /** Rounds that add their edge were for names that close no cycle. */
  lemma {:induction false} AddedRoundsTell<N>(r: Registry<N>, name: string, p: N, depNames: seq<string>,
                                              trace: seq<Registry<N>>, n: nat)
    requires n < |trace| && n <= |depNames| && AllAdded(name, p, depNames, trace, n)
    requires Wf(r) && Adding(trace[0], name, p) && SameBut(r, trace[0], p)
             && forall m :: m in r.edges ==> m in trace[0].edges
    ensures forall i :: 0 <= i < n ==> !WouldClose(r, name, depNames[i])
  {
    hide AddsDependency, Adding, SameBut, Closes, WouldClose;
    if n > 0 {
      AddedRoundsTell(r, name, p, depNames, trace, n - 1);
      RoundsAreSameBut(r, name, p, depNames, trace, n - 1);
      RoundKeeps(trace[n - 1], name, p, depNames[n - 1], trace[n], Added);
      ClosesAsBefore(r, trace[n - 1], name, p, depNames[n - 1]);
    }
  }

  lemma RejectedRoundTells<N>(r: Registry<N>, name: string, p: N, depNames: seq<string>, trace: seq<Registry<N>>,
                              n: nat, r': Registry<N>)
    requires n < |trace| && n < |depNames| && AllAdded(name, p, depNames, trace, n)
    requires Wf(r) && Adding(trace[0], name, p) && SameBut(r, trace[0], p)
             && forall m :: m in r.edges ==> m in trace[0].edges
    requires Intact(trace[0]) && Adding(trace[n], name, p)
             && AddsDependency(trace[n], name, p, depNames[n], r', Cyclical)
    ensures WouldClose(r, name, depNames[n])
  {
    RoundsKeep(name, p, depNames, trace, n);
    RoundsAreSameBut(r, name, p, depNames, trace, n);
    RoundKeeps(trace[n], name, p, depNames[n], r', Cyclical);
    ClosesAsBefore(r, trace[n], name, p, depNames[n]);
  }

  lemma EnteringIsSameBut<N>(r: Registry<N>, plugin: Plugin, r1: Registry<N>)
    requires Wf(r) && Enters(r, plugin, r1)
    ensures SameBut(r, r1, r1.deps[plugin.name]) && forall m :: m in r.edges ==> m in r1.edges
  {
  }

  /** Until the first rejection, and unless the search runs into a placeholder, a new plugin is rejected
      exactly if one of its dependencies would close a cycle. */
  lemma RejectedIffCycle<N>(r: Registry<N>, plugin: Plugin, trace: seq<Registry<N>>, result: AddResult)
    requires Wf(r) && FiledOnce(r) && Intact(r) && AddsPlugin(r, plugin, trace, result)
    requires result == Added || result == Cyclical
    ensures result == Cyclical <==> exists k :: k in DependsOn(plugin) && WouldClose(r, plugin.name, k)
  {
    hide AddsDependency, Adding, SameBut, Closes, WouldClose, Enters, Intact;
    EnteringKeeps(r, plugin, trace[0]);
    EnteringIsSameBut(r, plugin, trace[0]);
    var p, depNames := trace[0].deps[plugin.name], DependsOn(plugin);
    if result == Cyclical {
      var last := |trace| - 2;
      RejectedRoundTells(r, plugin.name, p, depNames, trace, last, trace[last + 1]);
      assert depNames[last] in depNames;
    } else {
      AddedRoundsTell(r, plugin.name, p, depNames, trace, |trace| - 1);
    }
  }

  // ---- what an addition comes to --------------------------------------------------------------

  /** A dependency that is there already leads to a placeholder, other than that of the plugin itself. */
  ghost predicate MeetsPlaceholder<N>(r: Registry<N>, name: string, depName: string)
    requires Wf(r)
  {
    && Filled(r, depName)
    && exists n :: n in ReachFrom(r, r.deps[depName]) && IsOtherPlaceholder(r, name, n)
  }

  ghost predicate IsOtherPlaceholder<N>(r: Registry<N>, name: string, n: N) {
    n in r.plugins && r.plugins[n] == None && !(name in r.deps && r.deps[name] == n)
  }

  /** During an addition at node p the plugins of other nodes stay, and new nodes have none. */
  ghost predicate SamePlugins<N>(r: Registry<N>, now: Registry<N>, p: N) {
    && (forall n :: n in r.plugins && n != p ==> n in now.plugins && now.plugins[n] == r.plugins[n])
    && (forall n :: n in now.plugins && n !in r.plugins && n != p ==> now.plugins[n] == None)
  }

  lemma RoundIsSamePlugins<N>(r: Registry<N>, now: Registry<N>, name: string, p: N, depName: string, next: Registry<N>)
    requires Adding(now, name, p) && SamePlugins(r, now, p) && AddsDependency(now, name, p, depName, next, Added)
    ensures SamePlugins(r, next, p)
  {
    hide Search, Lifted, Ranked, FiledOnce;
  }

  lemma {:induction false} RoundsAreSamePlugins<N>(r: Registry<N>, name: string, p: N, depNames: seq<string>,
                                                   trace: seq<Registry<N>>, n: nat)
    requires n < |trace| && n <= |depNames| && AllAdded(name, p, depNames, trace, n) && SamePlugins(r, trace[0], p)
    ensures SamePlugins(r, trace[n], p)
  {
    hide AddsDependency, Adding, SamePlugins;
    if n > 0 {
      RoundsAreSamePlugins(r, name, p, depNames, trace, n - 1);
      RoundIsSamePlugins(r, trace[n - 1], name, p, depNames[n - 1], trace[n]);
    }
  }

  lemma EnteringIsSamePlugins<N>(r: Registry<N>, plugin: Plugin, r1: Registry<N>)
    requires Wf(r) && Enters(r, plugin, r1)
    ensures SamePlugins(r, r1, r1.deps[plugin.name])
    ensures plugin.name in r.deps ==> r1.deps[plugin.name] == r.deps[plugin.name]
    ensures plugin.name !in r.deps ==> r1.deps[plugin.name] !in r.edges
  {
  }

  /** What holds throughout an addition to r of the plugin `name` at node p. */
  ghost predicate Amid<N>(r: Registry<N>, now: Registry<N>, name: string, p: N) {
    && Wf(r) && Adding(now, name, p) && SameBut(r, now, p) && SamePlugins(r, now, p)
    && (if name in r.deps then r.deps[name] == p else p !in r.edges)
  }

  lemma AddedReaches<N>(r: Registry<N>, now: Registry<N>, name: string, p: N, d: N)
    requires Amid(r, now, name, p) && d in r.edges && d in now.edges && p !in ReachFrom(now, d)
    ensures ReachFrom(r, d) <= ReachFrom(now, d)
  {
    ReachClosed(now.edges, now.rank, d);
    ReachLeast(r.edges, r.rank, d, ReachFrom(now, d));
  }

  lemma NotFoundMeans<N>(now: Registry<N>, name: string, p: N, d: N)
    requires Adding(now, name, p) && d in now.edges && Search(now, d, name).NotFound?
    ensures p !in ReachFrom(now, d) && forall n :: n in ReachFrom(now, d) ==> n in now.plugins && now.plugins[n].Some?
  {
    var names := NamesIn(now.plugins);
    SearchIsReach(now, d, name);
    assert names[p] == Some(name);
    assert ReachFrom(now, d) <= now.edges.Keys;
    forall n | n in ReachFrom(now, d) ensures now.plugins[n].Some? {
      assert names[n].Some?;
    }
  }

  lemma AddedIsSearched<N>(r: Registry<N>, now: Registry<N>, name: string, p: N, depName: string, next: Registry<N>)
    requires Amid(r, now, name, p) && AddsDependency(now, name, p, depName, next, Added) && Filled(r, depName)
    ensures r.deps[depName] in now.edges && r.deps[depName] in r.edges
    ensures Search(now, r.deps[depName], name).NotFound?
  {
    hide WithEdge, WithPlaceholder, Search, Rejected;
    FilledStays(r, now, name, p, depName);
  }

  /** A dependency that is added leads to no placeholder. */
  lemma AddedMeetsNone<N>(r: Registry<N>, now: Registry<N>, name: string, p: N, depName: string, next: Registry<N>)
    requires Amid(r, now, name, p) && AddsDependency(now, name, p, depName, next, Added)
    ensures !MeetsPlaceholder(r, name, depName)
  {
    hide AddsDependency, Search, SameBut, ReachFrom, FiledOnce;
    if Filled(r, depName) {
      var d := r.deps[depName];
      AddedIsSearched(r, now, name, p, depName, next);
      NotFoundMeans(now, name, p, d);
      AddedReaches(r, now, name, p, d);
      forall n | n in ReachFrom(r, d) ensures !IsOtherPlaceholder(r, name, n) {
        assert n in ReachFrom(now, d);
      }
    }
  }

  lemma FilledStays<N>(r: Registry<N>, now: Registry<N>, name: string, p: N, depName: string)
    requires Amid(r, now, name, p) && Filled(r, depName)
    ensures depName in now.deps && now.deps[depName] == r.deps[depName]
    ensures r.deps[depName] in now.edges && now.plugins[r.deps[depName]].Some?
  {
  }

  /** The search panics only at a placeholder that it reaches without passing the plugin itself. */
  lemma PanicsBeside<N>(now: Registry<N>, name: string, p: N, d: N) returns (n: N)
    requires Adding(now, name, p) && d in now.edges && Search(now, d, name).Panics?
    ensures Ranked(now.edges[p := []], now.rank)
    ensures n in Reach(now.edges[p := []], now.rank, d) && n in now.plugins && now.plugins[n] == None
  {
    var cut, names := now.edges[p := []], NamesIn(now.plugins);
    assert names[p] == Some(name);
    CutKeepsRanked(now.edges, now.rank, p);
    FindStopsAt(now.edges, now.rank, names, p, d, name);
    FindIsReach(cut, now.rank, names, d, name);
    n :| n in Reach(cut, now.rank, d) && names[n] == None;
    assert Reach(cut, now.rank, d) <= cut.Keys;
  }

  lemma PanicDependency<N>(r: Registry<N>, now: Registry<N>, name: string, p: N, depName: string, next: Registry<N>)
    requires Amid(r, now, name, p) && AddsDependency(now, name, p, depName, next, AddPanics)
    ensures Filled(r, depName) && r.deps[depName] in now.edges && r.deps[depName] in r.edges
    ensures Search(now, r.deps[depName], name).Panics?
  {
    var d := now.deps[depName];
    if d == p {
      SearchBegins(now, p, name);
    }
  }

  /** A panic is due to a placeholder that the dependency led to before the addition began. */
  lemma PanicMeetsPlaceholder<N>(r: Registry<N>, now: Registry<N>, name: string, p: N, depName: string,
                                 next: Registry<N>)
    requires Amid(r, now, name, p) && AddsDependency(now, name, p, depName, next, AddPanics)
    ensures MeetsPlaceholder(r, name, depName)
  {
    hide AddsDependency, Search, SameBut, ReachFrom, Ranked, FiledOnce;
    PanicDependency(r, now, name, p, depName, next);
    var d := r.deps[depName];
    var n := PanicsBeside(now, name, p, d);
    CutReachesLess(r, now, name, p, d);
    assert n in ReachFrom(r, d);
    ReachedAreNodes(r, d);
    assert IsOtherPlaceholder(r, name, n);
  }

  lemma ReachedAreNodes<N>(r: Registry<N>, d: N)
    requires Wf(r) && d in r.edges
    ensures ReachFrom(r, d) <= r.plugins.Keys
  {
  }

  lemma CutReachesLess<N>(r: Registry<N>, now: Registry<N>, name: string, p: N, d: N)
    requires Amid(r, now, name, p) && d in r.edges && d in now.edges && Ranked(now.edges[p := []], now.rank)
    ensures Reach(now.edges[p := []], now.rank, d) <= ReachFrom(r, d)
  {
    ReachClosed(r.edges, r.rank, d);
    ReachLeast(now.edges[p := []], now.rank, d, ReachFrom(r, d));
  }

  lemma AmidFirst<N>(r: Registry<N>, plugin: Plugin, r1: Registry<N>)
    requires Wf(r) && FiledOnce(r) && !Filled(r, plugin.name) && Enters(r, plugin, r1)
    ensures plugin.name in r1.deps && Amid(r, r1, plugin.name, r1.deps[plugin.name])
    ensures forall m :: m in r.edges ==> m in r1.edges
  {
    EnteringKeeps(r, plugin, r1);
    EnteringIsSameBut(r, plugin, r1);
    EnteringIsSamePlugins(r, plugin, r1);
  }

  lemma AmidAlways<N>(r: Registry<N>, name: string, p: N, depNames: seq<string>, trace: seq<Registry<N>>, n: nat)
    requires n < |trace| && n <= |depNames| && AllAdded(name, p, depNames, trace, n)
    requires Amid(r, trace[0], name, p) && (forall m :: m in r.edges ==> m in trace[0].edges)
             && Adding(trace[n], name, p)
    ensures Amid(r, trace[n], name, p)
  {
    hide Adding, SameBut, SamePlugins, AllAdded, Wf;
    RoundsAreSameBut(r, name, p, depNames, trace, n);
    RoundsAreSamePlugins(r, name, p, depNames, trace, n);
  }

  lemma {:induction false} AddedRoundsMeetNone<N>(r: Registry<N>, name: string, p: N, depNames: seq<string>,
                                                  trace: seq<Registry<N>>, n: nat)
    requires n < |trace| && n <= |depNames| && AllAdded(name, p, depNames, trace, n)
    requires Amid(r, trace[0], name, p) && forall m :: m in r.edges ==> m in trace[0].edges
    ensures forall i :: 0 <= i < n ==> !MeetsPlaceholder(r, name, depNames[i])
  {
    hide AddsDependency, Adding, SameBut, SamePlugins, MeetsPlaceholder, Wf;
    if n > 0 {
      AddedRoundsMeetNone(r, name, p, depNames, trace, n - 1);
      AmidAlways(r, name, p, depNames, trace, n - 1);
      AddedMeetsNone(r, trace[n - 1], name, p, depNames[n - 1], trace[n]);
    }
  }

  /** Until the first rejection, a new plugin is added if and only if none of its dependencies would close a
      cycle and none leads to a placeholder other than its own; if one does, the addition is rejected only
      for a cycle and panics only for a placeholder. */
  lemma AddedIff<N>(r: Registry<N>, plugin: Plugin, trace: seq<Registry<N>>, result: AddResult)
    requires Wf(r) && FiledOnce(r) && Intact(r) && !Filled(r, plugin.name) && AddsPlugin(r, plugin, trace, result)
    ensures result == Added <==> forall k :: k in DependsOn(plugin) ==>
              !WouldClose(r, plugin.name, k) && !MeetsPlaceholder(r, plugin.name, k)
    ensures result == Cyclical ==> exists k :: k in DependsOn(plugin) && WouldClose(r, plugin.name, k)
    ensures result == AddPanics ==> exists k :: k in DependsOn(plugin) && MeetsPlaceholder(r, plugin.name, k)
    ensures result == Added || result == Cyclical || result == AddPanics
  {
    hide AddsDependency, Adding, SameBut, SamePlugins, Closes, WouldClose, MeetsPlaceholder, Enters, Intact, Wf,
      AllAdded, FiledOnce, Filled;
    AmidFirst(r, plugin, trace[0]);
    var p, depNames := trace[0].deps[plugin.name], DependsOn(plugin);
    if result == Added || result == Cyclical {
      RejectedIffCycle(r, plugin, trace, result);
      if result == Added {
        AddedRoundsMeetNone(r, plugin.name, p, depNames, trace, |trace| - 1);
      }
    } else {
      var last := |trace| - 2;
      AmidAlways(r, plugin.name, p, depNames, trace, last);
      ResultIsPanic(trace[last], plugin.name, p, depNames[last], trace[last + 1], result);
      PanicMeetsPlaceholder(r, trace[last], plugin.name, p, depNames[last], trace[last + 1]);
      assert depNames[last] in depNames;
    }
  }

  lemma ResultIsPanic<N>(r: Registry<N>, name: string, p: N, depName: string, r': Registry<N>, result: AddResult)
    requires Adding(r, name, p) && AddsDependency(r, name, p, depName, r', result) && result != Added
             && result != Cyclical
    ensures result == AddPanics
  {
  }

  /** A depends on B, which is not there yet, and now comes C, which depends on A. */
  ghost function Unfinished(): Registry<nat> {
    Registry(map["A" := 0, "B" := 1, "C" := 2],
             map[0 := Some(Plugin("A", Some(["B"]), true)), 1 := None, 2 := Some(Plugin("C", Some(["A"]), true))],
             map[0 := [1], 1 := [], 2 := []], map[0 := 1, 1 := 0, 2 := 0])
  }

  lemma UnfinishedIsRanked()
    ensures Ranked(Unfinished().edges, Unfinished().rank)
  {
    var r := Unfinished();
    assert r.edges.Keys == {0, 1, 2} && r.rank.Keys == {0, 1, 2};
    assert r.edges[0] == [1] && r.edges[1] == [] && r.edges[2] == [];
    assert r.rank[0] == 1 && r.rank[1] == 0 && r.rank[2] == 0;
  }

  lemma UnfinishedIsWf()
    ensures Wf(Unfinished()) && Intact(Unfinished()) && Adding(Unfinished(), "C", 2)
  {
    hide Ranked;
    UnfinishedIsRanked();
    var r := Unfinished();
    assert r.edges.Keys == {0, 1, 2} && r.plugins.Keys == {0, 1, 2} && r.deps.Keys == {"A", "B", "C"};
    assert r.deps["A"] == 0 && r.deps["B"] == 1 && r.deps["C"] == 2;
    assert r.plugins[0].value.name == "A" && r.plugins[1] == None && r.plugins[2].value.name == "C" && r.edges[1] == [];
  }

  /** The search for C below A then panics at B, and with it the addition. */
  lemma PlaceholderPanics()
    ensures Adding(Unfinished(), "C", 2) && Intact(Unfinished())
    ensures AddsDependency(Unfinished(), "C", 2, "A", Unfinished(), AddPanics)
  {
    hide Wf, Search, SearchRest, Adding, Intact, WithEdge, WithPlaceholder, Rejected;
    UnfinishedIsWf();
    var r := Unfinished();
    SearchBegins(r, 0, "C");
    SearchGoesOn(r, 0, 0, "C");
    SearchBegins(r, 1, "C");
  }

  // ---- any number of additions ----------------------------------------------------------------

  ghost predicate Follows<N>(r: Registry<N>, plugin: Plugin, trace: seq<Registry<N>>, result: AddResult,
                             next: Registry<N>) {
    Wf(r) && AddsPlugin(r, plugin, trace, result) && next == trace[|trace| - 1]
  }

  /** `states` is the history of a registry that starts out empty and sees the given additions. */
  ghost predicate IsHistory<N>(states: seq<Registry<N>>, plugins: seq<Plugin>, traces: seq<seq<Registry<N>>>,
                               results: seq<AddResult>) {
    && |states| == |plugins| + 1 == |traces| + 1 == |results| + 1
    && states[0] == Registry(map[], map[], map[], map[])
    && forall i :: 0 <= i < |plugins| ==> Follows(states[i], plugins[i], traces[i], results[i], states[i + 1])
  }

  lemma EmptyIsWf<N>()
    ensures var r: Registry<N> := Registry(map[], map[], map[], map[]);
            Wf(r) && FiledOnce(r) && Intact(r)
  {
  }

  /** After any sequence of additions, accepted, duplicate or rejected, no path of pointers comes back to
      where it started; and the registry is intact as long as nothing has been rejected. */
  lemma {:induction false} HistoryIsAcyclic<N>(states: seq<Registry<N>>, plugins: seq<Plugin>,
                                               traces: seq<seq<Registry<N>>>, results: seq<AddResult>, n: nat)
    requires IsHistory(states, plugins, traces, results) && n < |states|
    ensures Wf(states[n]) && FiledOnce(states[n])
    ensures (forall i :: 0 <= i < n ==> results[i].Added? || results[i].AlreadyAdded?) ==> Intact(states[n])
  {
    hide Wf, FiledOnce, AddsPlugin, Intact;
    if n == 0 {
      EmptyIsWf<N>();
    } else {
      HistoryIsAcyclic(states, plugins, traces, results, n - 1);
      assert Follows(states[n - 1], plugins[n - 1], traces[n - 1], results[n - 1], states[n]);
      AdditionKeepsAcyclic(states[n - 1], plugins[n - 1], traces[n - 1], results[n - 1]);
    }
  }

  lemma HistoryHasNoCycle<N>(states: seq<Registry<N>>, plugins: seq<Plugin>, traces: seq<seq<Registry<N>>>,
                             results: seq<AddResult>, n: nat, path: seq<N>)
    requires IsHistory(states, plugins, traces, results) && n < |states|
    requires IsPath(states[n].edges, path) && |path| >= 2
    ensures path[0] != path[|path| - 1]
  {
    hide FiledOnce, AddsPlugin, Intact, IsHistory;
    HistoryIsAcyclic(states, plugins, traces, results, n);
    NoCycle(states[n].edges, states[n].rank, path);
  }
}
