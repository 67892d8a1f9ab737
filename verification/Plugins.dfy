/** The plugin registry as objects that change in place: nodes that point to each other, placeholders
    for plugins that others name before they are added, and the memoised depth-first start. */
module Plugins {
  import opened Options
  import opened DependencyGraph
  import opened PluginRegistry
  import opened PluginStart
  import opened PluginNames

  class Dependency {
    var plugin: Option<Plugin>
    var dependsOn: seq<Dependency>
    var invoked: bool

    constructor ()
      ensures plugin == None && dependsOn == [] && !invoked
    {
      plugin, dependsOn, invoked := None, [], false;
    }
  }

  class Dependencies {
    var deps: map<string, Dependency>
    var started: seq<Dependency>            // the plugins started so far, in order
    ghost var nodes: set<Dependency>        // all nodes ever made
    ghost var rank: map<Dependency, nat>    // why there is no cycle

    /** What the objects amount to. */
    ghost function View(): Registry<Dependency>
      reads this, nodes
    {
      Registry(deps, map n | n in nodes :: n.plugin, map n | n in nodes :: n.dependsOn, rank)
    }

    lemma ViewOfNodes()
      ensures View().deps == deps && View().edges.Keys == nodes
    {
    }

    ghost predicate Valid()
      reads this, nodes
    {
      Wf(View()) && FiledOnce(View())
    }

    constructor ()
      ensures Valid() && Intact(View()) && deps == map[] && started == [] && nodes == {}
    {
      deps, started := map[], [];
      nodes, rank := {}, map[];
    }

    /** The search from one node. */
    method FindFrom(a: Dependency, name: string) returns (r: Outcome<Dependency>)
      requires Wf(View()) && a in nodes
      ensures r == Search(View(), a, name)
      decreases rank[a]
    {
      hide Wf, Search, SearchRest;
      ghost var v := View();
      SearchBegins(v, a, name);
      if a.plugin.None? {
        return Panics;
      }
      if a.plugin.value.name == name {
        return Found(a);
      }
      var i := 0;
      while i < |a.dependsOn|
        invariant 0 <= i <= |a.dependsOn|
        invariant Search(v, a, name) == SearchRest(v, a, i, name)
      {
        SearchGoesOn(v, a, i, name);
        r := FindFrom(a.dependsOn[i], name);
        if r != NotFound {
          return;
        }
        i := i + 1;
      }
      SearchEnds(v, a, name);
      r := NotFound;
    }

    /** The answer r is right for what the node filed under d reaches: a found node is reachable and has
        the name, a name not found is on no reachable node, and a panic is due to a reachable placeholder. */
    ghost predicate Answers(d: string, name: string, r: Outcome<Dependency>)
      requires Valid() && d in deps
      reads this, nodes
    {
      FindMeans(NamesIn(View().plugins), ReachFrom(View(), deps[d]), name, r)
    }

    /** What the search from the node filed under d comes to. */
    ghost function SearchBelow(d: string, name: string): Outcome<Dependency>
      requires Valid() && d in deps
      reads this, nodes
    {
      Search(View(), deps[d], name)
    }

    /** The search over the whole registry, in whatever order the file is visited. */
    method FindPlugin(name: string) returns (r: Outcome<Dependency>)
      requires Valid()
      ensures if r == NotFound then forall d :: d in deps ==> SearchBelow(d, name) == NotFound
              else exists d :: d in deps && SearchBelow(d, name) == r
      ensures r == NotFound ==> forall d :: d in deps ==> Answers(d, name, NotFound)
      ensures r != NotFound ==> exists d :: d in deps && Answers(d, name, r)
    {
      hide FindMeans, Wf, FiledOnce;
      FiledAreNodes(View());
      var rest := deps.Keys;
      while rest != {}
        invariant rest <= deps.Keys
        invariant forall d :: d in deps && d !in rest ==> Answers(d, name, NotFound) && SearchBelow(d, name) == NotFound
        decreases rest
      {
        var d :| d in rest;
        r := FindFrom(deps[d], name);
        SearchIsReach(View(), deps[d], name);
        assert Answers(d, name, r) && SearchBelow(d, name) == r;
        if r != NotFound {
          return;
        }
        rest := rest - {d};
      }
      r := NotFound;
    }

    // ---- adding -------------------------------------------------------------------------------

    /** A node for a name that nobody has filed yet. */
    method NewPlaceholder(name: string) returns (n: Dependency)
      requires name !in deps
      modifies this`deps, this`nodes, this`rank
      ensures fresh(n) && n !in old(nodes) && nodes == old(nodes) + {n} && deps == old(deps)[name := n]
      ensures View() == WithPlaceholder(old(View()), name, n)
      ensures !n.invoked
    {
      ghost var v := View();
      n := new Dependency();
      deps := deps[name := n];
      nodes := nodes + {n};
      rank := rank[n := 0];
      assert View().plugins == v.plugins[n := None];
      assert View().edges == v.edges[n := []];
    }

    method PointTo(plug: Dependency, d: Dependency)
      requires Wf(View()) && plug in nodes && d in nodes
      modifies this`rank, plug`dependsOn
      ensures View() == WithEdge(old(View()), plug, d)
    {
      ghost var v := View();
      ghost var lifted := WithEdge(v, plug, d).rank;
      hide Wf, Lifted, Search, ReachFrom, Ranked;
      rank := lifted;
      plug.dependsOn := plug.dependsOn + [d];
      assert View().plugins == v.plugins;
      assert View().edges == v.edges[plug := v.edges[plug] + [d]];
    }

    method Reject(name: string, d: Dependency)
      requires d in nodes
      modifies this`deps, d`dependsOn
      ensures View() == Rejected(old(View()), name, d)
    {
      ghost var v := View();
      d.dependsOn := [];
      deps := deps - {name};
      assert View().plugins == v.plugins;
      assert View().edges == v.edges[d := []];
    }

    /** One round of the loop over the dependencies of a new plugin. */
    method AddDependency(name: string, plug: Dependency, depName: string) returns (r: AddResult)
      requires Wf(View()) && plug in nodes
      modifies this`deps, this`nodes, this`rank, nodes`dependsOn
      ensures AddsDependency(old(View()), name, plug, depName, View(), r)
      ensures old(nodes) <= nodes && fresh(nodes - old(nodes))
    {
      hide Wf, AddsDependency, View;
      if depName in deps {
        r := AddFiledDependency(name, plug, depName);
      } else {
        r := AddNewDependency(name, plug, depName);
      }
    }

    method AddNewDependency(name: string, plug: Dependency, depName: string) returns (r: AddResult)
      requires Wf(View()) && plug in nodes && depName !in deps
      modifies this`deps, this`nodes, this`rank, plug`dependsOn
      ensures AddsDependency(old(View()), name, plug, depName, View(), r)
      ensures old(nodes) <= nodes && fresh(nodes - old(nodes))
    {
      hide Wf, AddsDependency, View, WithEdge, WithPlaceholder;
      ViewOfNodes();
      ghost var v := View();
      var n := NewPlaceholder(depName);
      RoundByPlaceholder(v, name, plug, depName, n);
      PointTo(plug, n);
      r := Added;
    }

    method AddFiledDependency(name: string, plug: Dependency, depName: string) returns (r: AddResult)
      requires Wf(View()) && plug in nodes && depName in deps
      modifies this`deps, this`rank, nodes`dependsOn
      ensures AddsDependency(old(View()), name, plug, depName, View(), r)
    {
      hide Wf, AddsDependency;
      ghost var v := View();
      FiledAreNodes(v);
      var d := deps[depName];
      var found := NotFound;
      if d.plugin.Some? {
        found := FindFrom(d, name);
      }
      RoundBySearch(v, name, plug, depName, found);
      match found
      case Found(_) =>
        Reject(name, d);
        r := Cyclical;
      case Panics =>
        r := AddPanics;
      case NotFound =>
        PointTo(plug, d);
        r := Added;
    }

    method SetPlugin(plug: Dependency, plugin: Plugin)
      requires plug in nodes
      modifies plug`plugin
      ensures View() == WithPlugin(old(View()), plug, plugin)
    {
      ghost var v := View();
      plug.plugin := Some(plugin);
      assert View().plugins == v.plugins[plug := Some(plugin)];
      assert View().edges == v.edges;
    }

    /** Put the plugin into its placeholder, or into a new node. */
    method Enter(plugin: Plugin) returns (plug: Dependency)
      requires Wf(View())
      modifies this`deps, this`nodes, this`rank, nodes`plugin
      ensures Enters(old(View()), plugin, View()) && plugin.name in deps && deps[plugin.name] == plug && plug in nodes
      ensures old(nodes) <= nodes && fresh(nodes - old(nodes))
    {
      FiledAreNodes(View());
      hide Wf;
      if plugin.name in deps {
        plug := deps[plugin.name];
      } else {
        plug := NewPlaceholder(plugin.name);
      }
      SetPlugin(plug, plugin);
    }

    /** Add a plugin; `trace` records the registry after each round. */
    method AddPlugin(plugin: Plugin) returns (r: AddResult, ghost trace: seq<Registry<Dependency>>)
      requires Valid()
      modifies this`deps, this`nodes, this`rank, nodes`plugin, nodes`dependsOn
      ensures AddsPlugin(old(View()), plugin, trace, r) && View() == trace[|trace| - 1]
      ensures Valid()
      ensures r == Added ==> plugin.name in deps && Recorded(plugin, deps[plugin.name])
      ensures r == Added ==> forall n :: n in old(nodes) && n != deps[plugin.name] ==>
                n in nodes && n.plugin == old(n.plugin) && n.dependsOn == old(n.dependsOn)
    {
      hide AddsDependency, Enters, Wf, FiledOnce, AddsPlugin;
      ghost var v := View();
      FiledAreNodes(v);
      if plugin.name in deps && deps[plugin.name].plugin.Some? {
        r, trace := AlreadyAdded, [v];
        NoAddition(v, plugin);
      } else {
        r, trace := AddNewPlugin(plugin);
      }
      AdditionKeepsAcyclic(v, plugin, trace, r);
      if r == Added {
        AdditionRecords(v, plugin, trace);
        assert View().edges.Keys == nodes && v.edges.Keys == old(nodes);
      }
    }

    /** The node holds the plugin, and points to the nodes of its dependencies, in their order. */
    ghost predicate Recorded(plugin: Plugin, plug: Dependency)
      reads this, nodes
    {
      && plug in nodes && plug.plugin == Some(plugin)
      && |plug.dependsOn| == |DependsOn(plugin)|
      && forall i :: 0 <= i < |plug.dependsOn| ==>
           DependsOn(plugin)[i] in deps && plug.dependsOn[i] == deps[DependsOn(plugin)[i]]
    }

    method AddNewPlugin(plugin: Plugin) returns (r: AddResult, ghost trace: seq<Registry<Dependency>>)
      requires Valid() && !Filled(View(), plugin.name)
      modifies this`deps, this`nodes, this`rank, nodes`plugin, nodes`dependsOn
      ensures AddsPlugin(old(View()), plugin, trace, r) && View() == trace[|trace| - 1]
    {
      hide AddsDependency, Enters, Wf, FiledOnce, Filled, AddsPlugin, SoFar, View;
      ghost var v := View();
      var plug := Enter(plugin);
      ViewOfNodes();
      SoFarBegins(v, plugin, View());
      trace := [View()];
      var depNames := DependsOn(plugin);
      var i := 0;
      while i < |depNames|
        invariant 0 <= i <= |depNames|
        invariant SoFar(v, plugin, plug, trace, i) && |trace| == i + 1 && trace[i] == View()
        invariant fresh(nodes - old(nodes))
      {
        SoFarIsWf(v, plugin, plug, trace, i);
        ViewOfNodes();
        r := AddDependency(plugin.name, plug, depNames[i]);
        SoFarGrows(v, plugin, plug, trace, i, View(), r);
        trace := trace + [View()];
        if r != Added {
          return;
        }
        i := i + 1;
      }
      r := Added;
      SoFarEnds(v, plugin, plug, trace);
    }

    // ---- starting -----------------------------------------------------------------------------

    ghost function Walk(): Progress<Dependency>
      reads this, nodes
    {
      Progress((set n | n in nodes && n.invoked), started)
    }

    method MarkInvoked(a: Dependency)
      requires a in nodes
      modifies a`invoked
      ensures View() == old(View()) && Walk() == old(Walk()).(invoked := old(Walk()).invoked + {a})
    {
      ghost var v := View();
      a.invoked := true;
      assert View().plugins == v.plugins && View().edges == v.edges;
    }

    /** Dependencies first, and each node at most once. */
    method StartPlugin(a: Dependency) returns (r: StartResult)
      requires Wf(View()) && a in nodes
      modifies this`started, nodes`invoked
      ensures View() == old(View())
      ensures var (s, result) := StartNode(View(), old(Walk()), a); Walk() == s && r == result
      decreases rank[a] + 1, 0
    {
      if a.invoked {
        return Started;
      }
      ghost var s0 := Walk();
      MarkInvoked(a);
      r := StartDependencies(a);
      if r != Started {
        return;
      }
      if a.plugin.None? {
        return StartPanics;
      }
      if !a.plugin.value.starts {
        return FailedToStart;
      }
      started := started + [a];
    }

    method StartDependencies(a: Dependency) returns (r: StartResult)
      requires Wf(View()) && a in nodes
      modifies this`started, nodes`invoked
      ensures View() == old(View())
      ensures var (s, result) := StartList(View(), old(Walk()), a.dependsOn, rank[a]); Walk() == s && r == result
      decreases rank[a], 1
    {
      hide Wf;
      ghost var v, s0 := View(), Walk();
      DependenciesAreLower(v, a);
      var i := 0;
      while i < |a.dependsOn|
        invariant 0 <= i <= |a.dependsOn| && View() == v
        invariant StartList(v, s0, a.dependsOn, v.rank[a]) == StartList(v, Walk(), a.dependsOn[i..], v.rank[a])
      {
        ghost var s, rest := Walk(), a.dependsOn[i..];
        assert rest[0] == a.dependsOn[i] && rest[1..] == a.dependsOn[i + 1..];
        r := StartPlugin(a.dependsOn[i]);
        if r != Started {
          return;
        }
        i := i + 1;
      }
      r := Started;
    }

    /** Start everything, visiting the file in any order, which `order` records. */
    method Start() returns (r: StartResult, ghost order: seq<string>)
      requires Valid()
      modifies this`started, nodes`invoked
      ensures View() == old(View()) && forall k :: k in order <==> k in deps
      ensures var (s, result) := StartAll(View(), old(Walk()), order); Walk() == s && r == result
    {
      hide Wf, FiledOnce;
      ghost var v, s0 := View(), Walk();
      FiledAreNodes(v);
      ghost var done: seq<string> := [];
      var rest := deps.Keys;
      while rest != {}
        invariant rest <= deps.Keys && View() == v
        invariant forall k :: k in done <==> k in deps && k !in rest
        invariant StartAll(v, s0, done) == (Walk(), Started)
        decreases rest
      {
        var d :| d in rest;
        rest := rest - {d};
        ghost var before := done;
        done := done + [d];
        StartAllAppend(v, s0, before, d);
        r := StartPlugin(deps[d]);
        if r != Started {
          // the remaining names are not visited any more
          order := done + SomeOrder(rest);
          StartAllStops(v, s0, done, SomeOrder(rest));
          return;
        }
      }
      order := done;
      r := Started;
    }
  }

  ghost function SomeOrder(names: set<string>): (order: seq<string>)
    ensures forall k :: k in order <==> k in names
  {
    if names == {} then [] else
      var k :| k in names;
      assert forall m :: m in names <==> m == k || m in names - {k};
      [k] + SomeOrder(names - {k})
  }

  lemma DependenciesAreLower(r: Registry<Dependency>, a: Dependency)
    requires Wf(r) && a in r.edges
    ensures a in r.rank && forall c :: c in r.edges[a] ==> c in r.edges && c in r.rank && r.rank[c] < r.rank[a]
  {
  }
}
