/** The registry told by the names alone: what a history of additions has declared, and what that means for
    the next addition and for a start. */
module PluginNames {
  import opened Options
  import opened DependencyGraph
  import opened PluginRegistry
  import opened PluginStart

  // ---- what an addition records ---------------------------------------------------------------

  /** The pointers of node n are, in order, those to the nodes filed under the names. */
  ghost predicate PointsAt<N>(r: Registry<N>, n: N, names: seq<string>) {
    && n in r.edges && |r.edges[n]| == |names|
    && forall i :: 0 <= i < |names| ==> names[i] in r.deps && r.edges[n][i] == r.deps[names[i]]
  }

  ghost function NamesOf(names: seq<string>): set<string> {
    set k | k in names
  }

  lemma EnteredIs<N>(r: Registry<N>, plugin: Plugin, r1: Registry<N>)
    requires Wf(r) && !Filled(r, plugin.name) && Enters(r, plugin, r1)
    ensures var p := r1.deps[plugin.name];
      && PointsAt(r1, p, []) && p in r1.plugins && r1.plugins[p] == Some(plugin)
      && r1.deps.Keys == r.deps.Keys + {plugin.name}
  {
  }

  /** A round that goes through appends a pointer to the node of its dependency. */
  lemma RoundPoints<N>(now: Registry<N>, name: string, p: N, depName: string, next: Registry<N>)
    requires Adding(now, name, p) && AddsDependency(now, name, p, depName, next, Added) && p in now.edges
    ensures depName in next.deps && p in next.edges && next.edges[p] == now.edges[p] + [next.deps[depName]]
    ensures next.deps.Keys == now.deps.Keys + {depName}
    ensures forall k :: k in now.deps ==> next.deps[k] == now.deps[k]
    ensures p in now.plugins && p in next.plugins && next.plugins[p] == now.plugins[p]
  {
    hide Search, Lifted, Ranked, FiledOnce;
  }

  lemma {:induction false} RoundsPoint<N>(name: string, p: N, depNames: seq<string>, trace: seq<Registry<N>>, n: nat)
    requires n < |trace| && n <= |depNames| && AllAdded(name, p, depNames, trace, n)
    requires PointsAt(trace[0], p, []) && p in trace[0].plugins
    ensures PointsAt(trace[n], p, depNames[..n])
    ensures p in trace[n].plugins && trace[n].plugins[p] == trace[0].plugins[p]
    ensures trace[n].deps.Keys == trace[0].deps.Keys + NamesOf(depNames[..n])
  {
    hide AddsDependency, Adding;
    if n > 0 {
      RoundsPoint(name, p, depNames, trace, n - 1);
      RoundPoints(trace[n - 1], name, p, depNames[n - 1], trace[n]);
      assert depNames[..n] == depNames[..n - 1] + [depNames[n - 1]];
    }
  }

  /** An addition that goes through records the plugin and its dependencies, in order, and changes nothing
      about the nodes of the others: the names that were not filed before get placeholders. */
  lemma AdditionRecords<N>(r: Registry<N>, plugin: Plugin, trace: seq<Registry<N>>)
    requires Wf(r) && FiledOnce(r) && AddsPlugin(r, plugin, trace, Added)
    ensures var r' := trace[|trace| - 1];
      && plugin.name in r'.deps
      && var p := r'.deps[plugin.name];
         && p in r'.plugins && r'.plugins[p] == Some(plugin)
         && PointsAt(r', p, DependsOn(plugin))
         && r'.deps.Keys == r.deps.Keys + {plugin.name} + NamesOf(DependsOn(plugin))
         && SameBut(r, r', p) && SamePlugins(r, r', p)
  {
    hide AddsDependency, Adding, SameBut, SamePlugins, FiledOnce, Wf, Enters, Filled, PointsAt;
    EnteringKeeps(r, plugin, trace[0]);
    EnteredIs(r, plugin, trace[0]);
    var n, p, depNames := |trace| - 1, trace[0].deps[plugin.name], DependsOn(plugin);
    EnteringIsSameBut(r, plugin, trace[0]);
    EnteringIsSamePlugins(r, plugin, trace[0]);
    RoundsPoint(plugin.name, p, depNames, trace, n);
    RoundsAreSameBut(r, plugin.name, p, depNames, trace, n);
    RoundsAreSamePlugins(r, plugin.name, p, depNames, trace, n);
    RoundsKeep(plugin.name, p, depNames, trace, n);
    FiledAt(trace[n], plugin.name, p);
    assert depNames[..n] == depNames;
  }

  lemma FiledAt<N>(r: Registry<N>, name: string, p: N)
    requires Adding(r, name, p)
    ensures name in r.deps && r.deps[name] == p
  {
  }

  lemma RejectedIs<N>(now: Registry<N>, name: string, p: N, depName: string, next: Registry<N>)
    requires Adding(now, name, p) && AddsDependency(now, name, p, depName, next, Cyclical)
    ensures depName in now.deps && now.deps[depName] in now.edges
    ensures var d := now.deps[depName];
      && next.deps == now.deps - {name} && next.plugins == now.plugins
      && next.edges.Keys == now.edges.Keys && next.edges[d] == []
      && forall n :: n in now.edges && n != d ==> next.edges[n] == now.edges[n]
  {
    hide Search, Lifted, Ranked, FiledOnce;
  }

  /** What a rejection leaves behind: the plugin's node is not filed any more but keeps the pointers it has
      got so far, and the node that closed the cycle has lost its own. */
  ghost predicate LeftBehind<N>(r: Registry<N>, plugin: Plugin, now: Registry<N>, r': Registry<N>, p: N, i: nat) {
    && i < |DependsOn(plugin)| && DependsOn(plugin)[i] in now.deps
    && PointsAt(now, p, DependsOn(plugin)[..i]) && SameBut(r, now, p)
    && now.deps.Keys == r.deps.Keys + {plugin.name} + NamesOf(DependsOn(plugin)[..i])
    && var d := now.deps[DependsOn(plugin)[i]];
       && r'.deps == now.deps - {plugin.name} && r'.plugins == now.plugins
       && d in now.edges && r'.edges == now.edges[d := []]
  }

  /** A rejection comes at the first dependency that closes a cycle. */
  lemma RejectionLeaves<N>(r: Registry<N>, plugin: Plugin, trace: seq<Registry<N>>) returns (i: nat, p: N)
    requires Wf(r) && FiledOnce(r) && AddsPlugin(r, plugin, trace, Cyclical)
    ensures |trace| == i + 2 && LeftBehind(r, plugin, trace[i], trace[i + 1], p, i)
    ensures if plugin.name in r.deps then r.deps[plugin.name] == p else p !in r.edges
    ensures p in trace[i + 1].plugins && trace[i + 1].plugins[p] == Some(plugin)
    ensures forall j :: 0 <= j < i ==> !WouldClose(r, plugin.name, DependsOn(plugin)[j])
    ensures Intact(r) ==> WouldClose(r, plugin.name, DependsOn(plugin)[i])
  {
    hide AddsDependency, Adding, SameBut, SamePlugins, FiledOnce, Wf, Enters, Filled, PointsAt, WouldClose, Intact,
      DependsOn, Closes;
    EnteringKeeps(r, plugin, trace[0]);
    EnteredIs(r, plugin, trace[0]);
    EnteringIsSameBut(r, plugin, trace[0]);
    EnteringIsSamePlugins(r, plugin, trace[0]);
    i, p := |trace| - 2, trace[0].deps[plugin.name];
    var depNames := DependsOn(plugin);
    RoundsPoint(plugin.name, p, depNames, trace, i);
    RoundsAreSameBut(r, plugin.name, p, depNames, trace, i);
    AddedRoundsTell(r, plugin.name, p, depNames, trace, i);
    RejectedIs(trace[i], plugin.name, p, depNames[i], trace[i + 1]);
    if Intact(r) {
      RejectedRoundTells(r, plugin.name, p, depNames, trace, i, trace[i + 1]);
    }
  }

  // ---- what a history has declared ------------------------------------------------------------

  /** To every name of a plugin that has been added, the names it depends on. */
  type Names = Graph<string>

  /** The first plugin of a name counts. */
  function Declared(plugins: seq<Plugin>): Names {
    if plugins == [] then map[]
    else
      var d, last := Declared(plugins[..|plugins| - 1]), plugins[|plugins| - 1];
      if last.name in d then d else d[last.name := DependsOn(last)]
  }

  ghost predicate Mentioned(d: Names, k: string) {
    k in d || exists m :: m in d && k in d[m]
  }

  /** The registry is what has been declared: a node is filed for each name that is mentioned, with a plugin
      if the name is declared, and points to the nodes of the declared dependencies. */
  ghost predicate Records<N>(r: Registry<N>, d: Names) {
    && (forall k :: k in r.deps <==> Mentioned(d, k))
    && (forall k :: k in r.deps ==> r.deps[k] in r.plugins && (r.plugins[r.deps[k]].Some? <==> k in d))
    && (forall k :: k in d ==> k in r.deps && PointsAt(r, r.deps[k], d[k]))
  }

  lemma MentionsMore(d: Names, name: string, names: seq<string>, k: string)
    requires name !in d
    ensures Mentioned(d[name := names], k) <==> Mentioned(d, k) || k == name || k in names
  {
    var d' := d[name := names];
    if m :| m in d && k in d[m] { assert m in d' && k in d'[m]; }
    if k in names { assert name in d' && k in d'[name]; }
    if m :| m in d' && k in d'[m] && m != name { assert m in d && k in d[m]; }
  }

  lemma FilledIffDeclared<N>(r: Registry<N>, d: Names, name: string)
    requires Wf(r) && Records(r, d)
    ensures Filled(r, name) <==> name in d
  {
    hide Ranked;
  }

  /** The node of the new plugin was filed under its name before, or is new. */
  lemma NodeOfNew<N>(r: Registry<N>, plugin: Plugin, trace: seq<Registry<N>>)
    requires Wf(r) && FiledOnce(r) && AddsPlugin(r, plugin, trace, Added)
    ensures plugin.name in trace[|trace| - 1].deps
    ensures forall k :: k in r.deps && k != plugin.name ==> r.deps[k] != trace[|trace| - 1].deps[plugin.name]
  {
    hide AddsDependency, Adding, SameBut, SamePlugins, Wf, AllAdded;
    AdditionRecords(r, plugin, trace);
    AdditionKeepsAcyclic(r, plugin, trace, Added);
    KeepsFile(r, trace[|trace| - 1], trace[|trace| - 1].deps[plugin.name]);
  }

  lemma KeepsFile<N>(r: Registry<N>, now: Registry<N>, p: N)
    requires SameBut(r, now, p)
    ensures forall k :: k in r.deps ==> k in now.deps && now.deps[k] == r.deps[k]
  {
  }

  lemma AddedIsRecorded<N>(r: Registry<N>, d: Names, plugin: Plugin, r': Registry<N>)
    requires Wf(r) && Records(r, d) && plugin.name !in d && plugin.name in r'.deps
    requires r'.deps.Keys == r.deps.Keys + {plugin.name} + NamesOf(DependsOn(plugin))
    requires var p := r'.deps[plugin.name];
      && p in r'.plugins && r'.plugins[p] == Some(plugin) && PointsAt(r', p, DependsOn(plugin))
      && SameBut(r, r', p) && SamePlugins(r, r', p)
      && (forall k :: k in r.deps && k != plugin.name ==> r.deps[k] != p)
    requires Wf(r') && FiledOnce(r')
    ensures Records(r', d[plugin.name := DependsOn(plugin)])
  {
    hide Ranked, Mentioned, DependsOn;
    var d', p := d[plugin.name := DependsOn(plugin)], r'.deps[plugin.name];
    forall k ensures k in r'.deps <==> Mentioned(d', k) {
      MentionsMore(d, plugin.name, DependsOn(plugin), k);
    }
    forall k | k in r'.deps ensures r'.deps[k] in r'.plugins && (r'.plugins[r'.deps[k]].Some? <==> k in d') {
      FiledAreNodes(r');
      if k != plugin.name { FilledStaysSo(r, d, r', p, k); }
    }
    forall k | k in d' && k != plugin.name ensures k in r'.deps && PointsAt(r', r'.deps[k], d'[k]) {
      PointersStay(r, r', p, k, d[k]);
    }
  }

  lemma FilledStaysSo<N>(r: Registry<N>, d: Names, r': Registry<N>, p: N, k: string)
    requires Records(r, d) && SameBut(r, r', p) && SamePlugins(r, r', p) && Wf(r) && Wf(r')
    requires k in r'.deps && r'.deps[k] != p
    ensures r'.deps[k] in r'.plugins && (r'.plugins[r'.deps[k]].Some? <==> k in d)
  {
    hide Ranked;
  }

  lemma PointersStay<N>(r: Registry<N>, r': Registry<N>, p: N, k: string, names: seq<string>)
    requires SameBut(r, r', p) && k in r.deps && r.deps[k] != p && PointsAt(r, r.deps[k], names)
    ensures k in r'.deps && PointsAt(r', r'.deps[k], names)
  {
  }

  // ---- reachable nodes are reachable names ----------------------------------------------------

  ghost predicate IsPathBetween(d: Names, a: string, b: string, path: seq<string>) {
    IsPath(d, path) && path[0] == a && path[|path| - 1] == b
  }

  /** From a name to a name that it depends on, directly or not, or to itself. */
  ghost predicate Leads(d: Names, a: string, b: string) {
    exists path :: IsPathBetween(d, a, b, path)
  }

  lemma LeadsToItself(d: Names, a: string)
    ensures Leads(d, a, a)
  {
    assert IsPathBetween(d, a, a, [a]);
  }

  lemma LeadsOn(d: Names, a: string, b: string, c: string)
    requires Leads(d, a, b) && b in d && c in d[b]
    ensures Leads(d, a, c)
  {
    var path :| IsPathBetween(d, a, b, path);
    assert IsPathBetween(d, a, c, path + [c]);
  }

  lemma LeadsFrom(d: Names, a: string, b: string, c: string)
    requires a in d && b in d[a] && Leads(d, b, c)
    ensures Leads(d, a, c)
  {
    var path :| IsPathBetween(d, b, c, path);
    var longer := [a] + path;
    assert forall i :: 0 < i < |longer| ==> longer[i] == path[i - 1];
    assert IsPathBetween(d, a, c, longer);
  }

  lemma RestOfPath(d: Names, a: string, b: string, path: seq<string>)
    requires IsPathBetween(d, a, b, path) && |path| > 1
    ensures a in d && path[1] in d[a] && IsPathBetween(d, path[1], b, path[1..])
  {
    var rest := path[1..];
    assert path[0] in d && path[1] in d[path[0]];
    assert forall i :: 0 <= i < |rest| ==> rest[i] == path[i + 1];
  }

  lemma {:induction false} PathIsReach<N>(r: Registry<N>, d: Names, a: string, b: string, path: seq<string>)
    requires Wf(r) && Records(r, d) && a in r.deps && IsPathBetween(d, a, b, path)
    ensures b in r.deps && r.deps[a] in r.edges && r.deps[b] in ReachFrom(r, r.deps[a])
    decreases |path|
  {
    FiledAreNodes(r);
    if |path| > 1 {
      hide Records, IsPath, ReachFrom;
      RestOfPath(d, a, b, path);
      PointsToDeclared(r, d, a, path[1]);
      PathIsReach(r, d, path[1], b, path[1..]);
      ReachSuccessor(r.edges, r.rank, r.deps[a], r.deps[path[1]]);
    }
  }

  lemma PointsToDeclared<N>(r: Registry<N>, d: Names, a: string, b: string)
    requires Wf(r) && Records(r, d) && a in d && b in d[a]
    ensures a in r.deps && b in r.deps && r.deps[a] in r.edges && r.deps[b] in r.edges[r.deps[a]]
  {
    assert PointsAt(r, r.deps[a], d[a]);
    var i :| 0 <= i < |d[a]| && d[a][i] == b;
  }

  /** Everything that a node reaches is filed under a name that its name leads to. */
  lemma ReachIsPath<N>(r: Registry<N>, d: Names, a: string, n: N)
    requires Wf(r) && FiledOnce(r) && Records(r, d) && a in r.deps && r.deps[a] in r.edges
    requires n in ReachFrom(r, r.deps[a])
    ensures exists b :: b in r.deps && r.deps[b] == n && Leads(d, a, b)
  {
    hide Leads, Records, FiledOnce;
    var led := set b | b in r.deps && Leads(d, a, b) :: r.deps[b];
    LeadsToItself(d, a);
    assert r.deps[a] in led;
    forall m, c | m in led && m in r.edges && c in r.edges[m] ensures c in led {
      var b :| b in r.deps && Leads(d, a, b) && r.deps[b] == m;
      var k := PointerIsDeclared(r, d, b, c);
      LeadsOn(d, a, b, k);
    }
    ReachLeast(r.edges, r.rank, r.deps[a], led);
  }

  lemma PointerIsDeclared<N>(r: Registry<N>, d: Names, b: string, c: N) returns (k: string)
    requires Wf(r) && Records(r, d) && b in r.deps && r.deps[b] in r.edges && c in r.edges[r.deps[b]]
    ensures b in d && k in d[b] && k in r.deps && r.deps[k] == c
  {
    assert b in d;
    assert PointsAt(r, r.deps[b], d[b]);
    var i :| 0 <= i < |d[b]| && r.edges[r.deps[b]][i] == c;
    k := d[b][i];
  }

  lemma LeadsIffReach<N>(r: Registry<N>, d: Names, a: string, b: string)
    requires Wf(r) && FiledOnce(r) && Records(r, d) && a in r.deps
    ensures r.deps[a] in r.edges
    ensures Leads(d, a, b) <==> b in r.deps && r.deps[b] in ReachFrom(r, r.deps[a])
  {
    hide Records, ReachFrom, IsPathBetween;
    FiledAreNodes(r);
    if path :| IsPathBetween(d, a, b, path) { PathIsReach(r, d, a, b, path); }
    if b in r.deps && r.deps[b] in ReachFrom(r, r.deps[a]) {
      ReachIsPath(r, d, a, r.deps[b]);
    }
  }

  // ---- what the next addition comes to --------------------------------------------------------

  /** Some path of two names or more comes back to where it started. */
  ghost predicate ClosesCycle(d: Names, a: string) {
    exists path :: |path| >= 2 && IsPathBetween(d, a, a, path)
  }

  /** Among the dependencies one that is declared leads to a name that is not, other than the plugin's own. */
  ghost predicate Dangles(d: Names, plugin: Plugin) {
    exists k, x :: k in DependsOn(plugin) && k in d && Leads(d, k, x) && x !in d && x != plugin.name
  }

  lemma {:induction false} UntilName(d: Names, name: string, names: seq<string>, a: string, path: seq<string>)
    requires name !in d && IsPathBetween(d[name := names], a, name, path)
    ensures Leads(d, a, name)
    decreases |path|
  {
    if a == name {
      LeadsToItself(d, name);
    } else {
      RestOfPath(d[name := names], a, name, path);
      UntilName(d, name, names, path[1], path[1..]);
      LeadsFrom(d, a, path[1], name);
    }
  }

  /** A new name closes a cycle exactly if one of its dependencies is or leads to that name. */
  lemma ClosesCycleIff(d: Names, name: string, names: seq<string>)
    requires name !in d
    ensures ClosesCycle(d[name := names], name) <==> exists k :: k in names && Leads(d, k, name)
  {
    var d' := d[name := names];
    if path :| |path| >= 2 && IsPathBetween(d', name, name, path) {
      RestOfPath(d', name, name, path);
      UntilName(d, name, names, path[1], path[1..]);
    }
    if k :| k in names && Leads(d, k, name) {
      var path :| IsPathBetween(d, k, name, path);
      var longer := [name] + path;
      assert forall i :: 0 < i < |longer| ==> longer[i] == path[i - 1];
      assert IsPathBetween(d', name, name, longer);
    }
  }

  lemma WouldCloseIff<N>(r: Registry<N>, d: Names, name: string, k: string)
    requires Wf(r) && FiledOnce(r) && Records(r, d)
    ensures WouldClose(r, name, k) <==> Leads(d, k, name)
  {
    hide Records, ReachFrom, Leads, FiledOnce;
    FiledAreNodes(r);
    if k == name {
      LeadsToItself(d, name);
    } else if k in r.deps {
      LeadsIffReach(r, d, k, name);
    } else {
      LeadsNowhere(r, d, k, name);
    }
  }

  lemma LeadsNowhere<N>(r: Registry<N>, d: Names, k: string, name: string)
    requires Records(r, d) && k !in r.deps && k != name
    ensures !Leads(d, k, name)
  {
    assert forall path :: IsPathBetween(d, k, name, path) ==> path[0] == path[|path| - 1];
  }

  lemma MeetsPlaceholderIff<N>(r: Registry<N>, d: Names, name: string, k: string)
    requires Wf(r) && FiledOnce(r) && Records(r, d)
    ensures MeetsPlaceholder(r, name, k) <==> k in d && exists x :: Leads(d, k, x) && x !in d && x != name
  {
    hide ReachFrom, Leads, Ranked, PointsAt;
    FilledIffDeclared(r, d, k);
    if k in d {
      LeadsIffReach(r, d, k, k);
      if n :| n in ReachFrom(r, r.deps[k]) && IsOtherPlaceholder(r, name, n) {
        ReachIsPath(r, d, k, n);
      }
      if x :| Leads(d, k, x) && x !in d && x != name {
        LeadsIffReach(r, d, k, x);
        assert IsOtherPlaceholder(r, name, r.deps[x]);
      }
    }
  }

  /** What becomes of an addition, told by the names that have been declared alone. */
  lemma AdditionByNames<N>(r: Registry<N>, d: Names, plugin: Plugin, trace: seq<Registry<N>>, result: AddResult)
    requires Wf(r) && FiledOnce(r) && Intact(r) && Records(r, d) && AddsPlugin(r, plugin, trace, result)
    ensures result == AlreadyAdded <==> plugin.name in d
    ensures plugin.name !in d ==>
              var d' := d[plugin.name := DependsOn(plugin)];
              && (result == Added <==> !ClosesCycle(d', plugin.name) && !Dangles(d, plugin))
              && (result == Cyclical ==> ClosesCycle(d', plugin.name))
              && (result == AddPanics ==> Dangles(d, plugin))
  {
    hide Records, Leads, Intact, FiledOnce, Wf, WouldClose, MeetsPlaceholder, AllAdded, Enters, ClosesCycle, DependsOn;
    FilledIffDeclared(r, d, plugin.name);
    if plugin.name !in d {
      AddedIff(r, plugin, trace, result);
      ClosesCycleIff(d, plugin.name, DependsOn(plugin));
      forall k ensures WouldClose(r, plugin.name, k) <==> Leads(d, k, plugin.name) {
        WouldCloseIff(r, d, plugin.name, k);
      }
      forall k ensures MeetsPlaceholder(r, plugin.name, k)
                       <==> k in d && exists x :: Leads(d, k, x) && x !in d && x != plugin.name {
        MeetsPlaceholderIff(r, d, plugin.name, k);
      }
    }
  }

  /** An addition that stops does so at the first dependency that closes a cycle or leads to a name that is
      not declared, and for that reason; if both are true of it, the order of the search decides. */
  lemma StopsAtFirst<N>(r: Registry<N>, d: Names, plugin: Plugin, trace: seq<Registry<N>>, result: AddResult)
    returns (i: nat)
    requires Wf(r) && FiledOnce(r) && Intact(r) && Records(r, d) && AddsPlugin(r, plugin, trace, result)
    requires result == Cyclical || result == AddPanics
    ensures i < |DependsOn(plugin)|
    ensures var k := DependsOn(plugin)[i];
            if result == Cyclical then Leads(d, k, plugin.name)
            else k in d && exists x :: Leads(d, k, x) && x !in d && x != plugin.name
    ensures forall j :: 0 <= j < i ==>
              var k := DependsOn(plugin)[j];
              && !Leads(d, k, plugin.name)
              && (k in d ==> forall x :: Leads(d, k, x) ==> x in d || x == plugin.name)
  {
    hide Records, Leads, Intact, FiledOnce, Wf, WouldClose, MeetsPlaceholder, AllAdded, Enters, DependsOn, Filled,
      Adding, SameBut, SamePlugins, AddsDependency;
    AmidFirst(r, plugin, trace[0]);
    var p, depNames := trace[0].deps[plugin.name], DependsOn(plugin);
    i := |trace| - 2;
    AmidAlways(r, plugin.name, p, depNames, trace, i);
    StepStops(r, plugin, trace, result, p, i);
    AddedRoundsMeetNone(r, plugin.name, p, depNames, trace, i);
    AmidIsSameBut(r, trace[0], plugin.name, p);
    AddedRoundsTell(r, plugin.name, p, depNames, trace, i);
    forall j | 0 <= j <= i
      ensures WouldClose(r, plugin.name, depNames[j]) <==> Leads(d, depNames[j], plugin.name)
      ensures MeetsPlaceholder(r, plugin.name, depNames[j])
              <==> depNames[j] in d && exists x :: Leads(d, depNames[j], x) && x !in d && x != plugin.name
    {
      WouldCloseIff(r, d, plugin.name, depNames[j]);
      MeetsPlaceholderIff(r, d, plugin.name, depNames[j]);
    }
  }

  lemma AmidIsSameBut<N>(r: Registry<N>, now: Registry<N>, name: string, p: N)
    requires Amid(r, now, name, p)
    ensures Adding(now, name, p) && SameBut(r, now, p)
  {
    hide Adding, SameBut, SamePlugins, Wf;
  }

  lemma StepStops<N>(r: Registry<N>, plugin: Plugin, trace: seq<Registry<N>>, result: AddResult, p: N, i: nat)
    requires Wf(r) && FiledOnce(r) && Intact(r) && !Filled(r, plugin.name) && AddsPlugin(r, plugin, trace, result)
    requires (result == Cyclical || result == AddPanics) && i + 2 == |trace| && Enters(r, plugin, trace[0])
    requires p == trace[0].deps[plugin.name] && Amid(r, trace[i], plugin.name, p)
    ensures if result == Cyclical then WouldClose(r, plugin.name, DependsOn(plugin)[i])
            else MeetsPlaceholder(r, plugin.name, DependsOn(plugin)[i])
  {
    hide Intact, FiledOnce, Wf, WouldClose, MeetsPlaceholder, AllAdded, Enters, DependsOn, Adding, SameBut,
      SamePlugins, AddsDependency, Filled, Amid;
    if result == Cyclical {
      EnteringKeeps(r, plugin, trace[0]);
      EnteringIsSameBut(r, plugin, trace[0]);
      RejectedRoundTells(r, plugin.name, p, DependsOn(plugin), trace, i, trace[i + 1]);
    } else {
      PanicMeetsPlaceholder(r, trace[i], plugin.name, p, DependsOn(plugin)[i], trace[i + 1]);
    }
  }

  // ---- over histories -------------------------------------------------------------------------

  /** No addition before the n-th has been rejected, nor has any panicked. */
  ghost predicate Smooth(results: seq<AddResult>, n: nat)
    requires n <= |results|
  {
    forall i :: 0 <= i < n ==> results[i].Added? || results[i].AlreadyAdded?
  }

  lemma DeclaredGrows(plugins: seq<Plugin>, n: nat)
    requires n < |plugins|
    ensures Declared(plugins[..n + 1]) == if plugins[n].name in Declared(plugins[..n]) then Declared(plugins[..n])
                                          else Declared(plugins[..n])[plugins[n].name := DependsOn(plugins[n])]
  {
    assert plugins[..n + 1][..n] == plugins[..n];
  }

  lemma SmoothStep<N>(r: Registry<N>, d: Names, plugin: Plugin, trace: seq<Registry<N>>, result: AddResult)
    requires Wf(r) && FiledOnce(r) && Intact(r) && Records(r, d) && AddsPlugin(r, plugin, trace, result)
    requires result.Added? || result.AlreadyAdded?
    ensures Records(trace[|trace| - 1], if plugin.name in d then d else d[plugin.name := DependsOn(plugin)])
  {
    hide Records, Leads, Intact, FiledOnce, Wf, AllAdded, Enters, ClosesCycle, DependsOn, Dangles, PointsAt, SameBut,
      SamePlugins;
    AdditionByNames(r, d, plugin, trace, result);
    if result.Added? {
      AdditionRecords(r, plugin, trace);
      NodeOfNew(r, plugin, trace);
      AdditionKeepsAcyclic(r, plugin, trace, result);
      AddedIsRecorded(r, d, plugin, trace[|trace| - 1]);
    }
  }

  lemma EmptyRecords<N>()
    ensures var r: Registry<N> := Registry(map[], map[], map[], map[]); Records(r, Declared([]))
  {
  }

  /** Until something is rejected, the registry is what has been declared. */
  lemma {:induction false} HistoryRecords<N>(states: seq<Registry<N>>, plugins: seq<Plugin>,
                                             traces: seq<seq<Registry<N>>>, results: seq<AddResult>, n: nat)
    requires IsHistory(states, plugins, traces, results) && n < |states| && Smooth(results, n)
    ensures Wf(states[n]) && FiledOnce(states[n]) && Intact(states[n])
    ensures Records(states[n], Declared(plugins[..n]))
  {
    hide Wf, FiledOnce, AddsPlugin, Intact, Records, Declared, DependsOn;
    HistoryIsAcyclic(states, plugins, traces, results, n);
    if n == 0 {
      EmptyRecords<N>();
      assert plugins[..0] == [];
    } else {
      var m: nat := n - 1;
      HistoryRecords(states, plugins, traces, results, m);
      assert Follows(states[m], plugins[m], traces[m], results[m], states[m + 1]);
      SmoothStep(states[m], Declared(plugins[..m]), plugins[m], traces[m], results[m]);
      DeclaredGrows(plugins, m);
    }
  }

  /** So the next addition is refused as a duplicate exactly if its name has been declared; otherwise it goes
      through exactly if the names declared, with its own, close no cycle at it, and none of its dependencies
      leads to a name that is not declared. */
  lemma NextAddition<N>(states: seq<Registry<N>>, plugins: seq<Plugin>, traces: seq<seq<Registry<N>>>,
                        results: seq<AddResult>, n: nat)
    requires IsHistory(states, plugins, traces, results) && n < |plugins| && Smooth(results, n)
    ensures var d, plugin, result := Declared(plugins[..n]), plugins[n], results[n];
      && (result == AlreadyAdded <==> plugin.name in d)
      && (plugin.name !in d ==>
            var d' := d[plugin.name := DependsOn(plugin)];
            && (result == Added <==> !ClosesCycle(d', plugin.name) && !Dangles(d, plugin))
            && (result == Cyclical ==> ClosesCycle(d', plugin.name))
            && (result == AddPanics ==> Dangles(d, plugin)))
  {
    hide Wf, FiledOnce, AddsPlugin, Intact, Records, Declared, DependsOn, ClosesCycle, Dangles;
    HistoryRecords(states, plugins, traces, results, n);
    assert Follows(states[n], plugins[n], traces[n], results[n], states[n + 1]);
    AdditionByNames(states[n], Declared(plugins[..n]), plugins[n], traces[n], results[n]);
  }

  // ---- starting -------------------------------------------------------------------------------

  /** n stands in the order, and m somewhere before it. */
  ghost predicate Before<N>(order: seq<N>, m: N, n: N) {
    exists i, j :: 0 <= i < j < |order| && order[i] == m && order[j] == n
  }

  lemma StartedBefore<N>(r: Registry<N>, order: seq<N>, m: N, n: N)
    requires Ordered(r.edges, order) && n in order && n in r.edges && m in r.edges[n]
    ensures Before(order, m, n)
  {
    var j :| 0 <= j < |order| && order[j] == n;
    assert m in order[..j];
    var i :| 0 <= i < j && order[..j][i] == m;
    assert order[i] == m;
  }

  /** If the start succeeds, every name that is mentioned has been declared, the plugins of exactly these have
      been started, and each after all that it names. */
  lemma StartByNames<N>(r: Registry<N>, d: Names, names: seq<string>)
    requires Wf(r) && FiledOnce(r) && Records(r, d) && forall k :: k in names <==> k in r.deps
    requires StartAll(r, Progress({}, []), names).1 == Started
    ensures var order := StartAll(r, Progress({}, []), names).0.started;
      && (forall k :: Mentioned(d, k) ==> k in d)
      && (forall k :: k in d ==> k in r.deps && r.deps[k] in order)
      && (forall n :: n in order ==> exists k :: k in d && k in r.deps && r.deps[k] == n)
      && (forall k, m :: k in d && m in d[k] ==> k in r.deps && m in r.deps && Before(order, r.deps[m], r.deps[k]))
  {
    hide Wf, FiledOnce, Records, ReachFrom, ReachNamed, Before, Ordered, Leads, StartAll, Mentioned, Holds;
    StartIsTopological(r, names);
    FiledIsMentioned(r, d);
    FiledAreStarted(r, d, names);
    StartedAreDeclared(r, d, names);
    var order := StartAll(r, Progress({}, []), names).0.started;
    forall k, m | k in d && m in d[k] ensures k in r.deps && m in r.deps && Before(order, r.deps[m], r.deps[k]) {
      PointsToDeclared(r, d, k, m);
      StartedBefore(r, order, r.deps[m], r.deps[k]);
    }
  }

  lemma FiledAreStarted<N>(r: Registry<N>, d: Names, names: seq<string>)
    requires Wf(r) && FiledOnce(r) && Records(r, d) && forall k :: k in names <==> k in r.deps
    requires StartAll(r, Progress({}, []), names).1 == Started
    ensures forall k :: k in r.deps ==> r.deps[k] in StartAll(r, Progress({}, []), names).0.started && k in d
  {
    hide Wf, FiledOnce, Records, ReachFrom, ReachNamed, Ordered, Leads, StartAll, Holds;
    StartIsTopological(r, names);
    ReachNamedIsUnion(r, names);
    forall k | k in r.deps ensures r.deps[k] in StartAll(r, Progress({}, []), names).0.started && k in d {
      LeadsIffReach(r, d, k, k);
      LeadsToItself(d, k);
      HoldsIsDeclared(r, d, k);
    }
  }

  lemma StartedAreDeclared<N>(r: Registry<N>, d: Names, names: seq<string>)
    requires Wf(r) && FiledOnce(r) && Records(r, d) && forall k :: k in names <==> k in r.deps
    ensures forall n :: n in StartAll(r, Progress({}, []), names).0.started ==>
              exists k :: k in d && k in r.deps && r.deps[k] == n
  {
    hide Wf, FiledOnce, Records, ReachFrom, ReachNamed, Ordered, Leads, StartAll, Holds;
    StartIsTopological(r, names);
    ReachNamedIsUnion(r, names);
    FiledAreNodes(r);
    forall n | n in StartAll(r, Progress({}, []), names).0.started
      ensures exists k :: k in d && k in r.deps && r.deps[k] == n
    {
      var k :| k in names && n in ReachFrom(r, r.deps[k]);
      ReachIsPath(r, d, k, n);
      var b :| b in r.deps && r.deps[b] == n && Leads(d, k, b);
      HoldsIsDeclared(r, d, b);
    }
  }

  lemma HoldsIsDeclared<N>(r: Registry<N>, d: Names, k: string)
    requires Records(r, d) && k in r.deps && Holds(r, r.deps[k])
    ensures k in d
  {
  }

  lemma FiledIsMentioned<N>(r: Registry<N>, d: Names)
    requires Records(r, d)
    ensures forall k :: k in r.deps <==> Mentioned(d, k)
    ensures forall k :: k in d ==> k in r.deps
  {
  }

  /** What holds of every start after a history without rejections. */
  lemma HistoryStarts<N>(states: seq<Registry<N>>, plugins: seq<Plugin>, traces: seq<seq<Registry<N>>>,
                         results: seq<AddResult>, n: nat, names: seq<string>)
    requires IsHistory(states, plugins, traces, results) && n < |states| && Smooth(results, n)
    requires (forall k :: k in names <==> k in states[n].deps) && Wf(states[n])
    requires StartAll(states[n], Progress({}, []), names).1 == Started
    ensures var d, r := Declared(plugins[..n]), states[n];
            var order := StartAll(r, Progress({}, []), names).0.started;
      && (forall k :: Mentioned(d, k) ==> k in d)
      && (forall k :: k in d ==> k in r.deps && r.deps[k] in order)
      && (forall k, m :: k in d && m in d[k] ==> k in r.deps && m in r.deps && Before(order, r.deps[m], r.deps[k]))
  {
    hide Wf, FiledOnce, Intact, Records, Declared, Before, StartAll, Mentioned, Follows;
    HistoryRecords(states, plugins, traces, results, n);
    StartByNames(states[n], Declared(plugins[..n]), names);
  }
}
