/** The two build-graph tasks: a depth-first walk over project dependencies
    with a visited set, resolution of external modules to third-party
    labels (DOT only), Mermaid node ids, and output sorted by key. */
module DependencyGraph {
  import opened Wrappers
  import opened Text

  type ProjectPath = string

  datatype Dependency =
    | ProjectDependency(path: ProjectPath)
    | ExternalModule(group: Option<string>, name: string)
    | OtherDependency

  /** A project's applied plugin ids and its configurations' dependencies. */
  datatype Project = Project(plugins: set<string>, configurations: seq<seq<Dependency>>)

  type Build = map<ProjectPath, Project>

  /** Every project dependency names a project of the build. */
  predicate Closed(build: Build)
  {
    forall p, k, j | p in build && 0 <= k < |build[p].configurations| && 0 <= j < |build[p].configurations[k]| ::
      build[p].configurations[k][j].ProjectDependency? ==> build[p].configurations[k][j].path in build
  }

  predicate IsApplication(project: Project)
  {
    "application" in project.plugins || "com.android.application" in project.plugins
  }

  // ------------------------------------------------- third-party labels

  /** Keys ("group" or "group:name") and display names, in table order. */
  type LibraryTable = seq<(string, string)>

  const ThirdPartyLibs: LibraryTable := [
    ("org.jetbrains.kotlinx" + ":" + "kotlinx-serialization-json", "Serialization"),
    ("dev.onvoid.webrtc", "WebRTC Java")
  ]

  /** The label of the entry whose key is exactly `id`. */
  function Exact(libs: LibraryTable, id: string): (r: Option<string>)
    ensures r.Some? <==> exists i :: 0 <= i < |libs| && libs[i].0 == id
    ensures r.Some? ==> exists i :: 0 <= i < |libs| && libs[i] == (id, r.value)
    decreases |libs|
  {
    if |libs| == 0 then None
    else if libs[0].0 == id then Some(libs[0].1)
    else
      var r := Exact(libs[1..], id);
      assert forall i :: 1 <= i < |libs| ==> libs[i] == libs[1..][i - 1];
      r
  }

  /** A group key has no ':' and names the group or one of its parents. */
  predicate GroupKeyMatches(key: string, group: string)
  {
    !Contains(key, ":") && (group == key || StartsWith(group, key + "."))
  }

  /** The label of the first entry, in table order, whose key matches the
      group. */
  function GroupMatch(libs: LibraryTable, group: string): (r: Option<string>)
    ensures r.None? <==> forall i :: 0 <= i < |libs| ==> !GroupKeyMatches(libs[i].0, group)
    ensures r.Some? ==> exists i :: 0 <= i < |libs| && libs[i].1 == r.value && GroupKeyMatches(libs[i].0, group)
                                    && forall j :: 0 <= j < i ==> !GroupKeyMatches(libs[j].0, group)
    decreases |libs|
  {
    if |libs| == 0 then None
    else if GroupKeyMatches(libs[0].0, group) then Some(libs[0].1)
    else
      var r := GroupMatch(libs[1..], group);
      assert forall i :: 1 <= i < |libs| ==> libs[i] == libs[1..][i - 1];
      r
  }

  /** An exact "group:name" entry wins over any group entry. */
  function LabelFor(libs: LibraryTable, group: string, name: string): Option<string>
  {
    var exact := Exact(libs, group + ":" + name);
    if exact.Some? then exact else GroupMatch(libs, group)
  }

  /** A label is found iff some key is the module's exact id or a group key
      matching its group; with an exact key, the label is that entry's. */
  lemma LabelResolution(libs: LibraryTable, group: string, name: string)
    ensures LabelFor(libs, group, name).Some? <==>
      exists i :: 0 <= i < |libs| && (libs[i].0 == group + ":" + name || GroupKeyMatches(libs[i].0, group))
    ensures (exists i :: 0 <= i < |libs| && libs[i].0 == group + ":" + name) ==>
      exists i :: 0 <= i < |libs| && libs[i] == (group + ":" + name, LabelFor(libs, group, name).value)
  {
    var exact := Exact(libs, group + ":" + name);
    if exact.None? && GroupMatch(libs, group).None? {
      forall i | 0 <= i < |libs|
        ensures libs[i].0 != group + ":" + name && !GroupKeyMatches(libs[i].0, group)
      {
      }
    }
  }

  /** A one-character key part is found exactly when the character occurs. */
  lemma ContainsChar(s: string, c: char)
    ensures Contains(s, [c]) <==> c in s
  {
    if c in s {
      var i :| 0 <= i < |s| && s[i] == c;
      assert OccursAt(s, [c], i);
    }
    if Contains(s, [c]) {
      var i :| 0 <= i <= |s| && OccursAt(s, [c], i);
      assert s[i] == s[i..i + 1][0];
    }
  }

  /** The table in use: the serialisation module resolves by its exact id. */
  lemma SerializationResolvesExactly()
    ensures LabelFor(ThirdPartyLibs, "org.jetbrains.kotlinx", "kotlinx-serialization-json") == Some("Serialization")
  {
    var id := "org.jetbrains.kotlinx" + ":" + "kotlinx-serialization-json";
    assert id == ThirdPartyLibs[0].0;
    assert Exact(ThirdPartyLibs, id) == Some("Serialization");
  }

  /** The WebRTC group key carries no ':' and so matches by group. */
  lemma WebRtcKeyIsGroupKey()
    ensures !Contains(ThirdPartyLibs[1].0, ":")
  {
    ContainsChar(ThirdPartyLibs[1].0, ':');
    forall i | 0 <= i < |ThirdPartyLibs[1].0|
      ensures ThirdPartyLibs[1].0[i] != ':'
    {
    }
  }

  /** The serialisation key is an exact key: it never matches a group. */
  lemma SerializationKeyIsExact()
    ensures Contains(ThirdPartyLibs[0].0, ":")
    ensures ThirdPartyLibs[0].0[0] == 'o'
  {
    var key := ThirdPartyLibs[0].0;
    assert key[21] == ':';
    assert key[21..22] == ":";
    assert OccursAt(key, ":", 21);
  }

  /** WebRTC resolves for its own group and every sub-group, whatever the
      module name. */
  lemma WebRtcResolvesByGroup(group: string, name: string)
    requires group == "dev.onvoid.webrtc" || StartsWith(group, "dev.onvoid.webrtc.")
    ensures LabelFor(ThirdPartyLibs, group, name) == Some("WebRTC Java")
  {
    SerializationKeyIsExact();
    WebRtcKeyIsGroupKey();
    assert group[0] == 'd' by {
      if group != "dev.onvoid.webrtc" {
        assert group[..18] == "dev.onvoid.webrtc.";
        assert group[0] == group[..18][0];
      }
    }
    var id := group + ":" + name;
    assert id[0] == 'd';
    assert ThirdPartyLibs[1].0 == "dev.onvoid.webrtc";
  }

  /** A sibling group that only shares a prefix with the WebRTC key, and a
      module of the serialisation group other than the listed one, resolve
      to nothing. */
  lemma UnlistedModulesUnresolved()
    ensures LabelFor(ThirdPartyLibs, "dev.onvoid.webrtcx", "webrtc-java") == None
    ensures LabelFor(ThirdPartyLibs, "org.jetbrains.kotlinx", "kotlinx-coroutines-core") == None
  {
    SerializationKeyIsExact();
    var webrtcx := "dev.onvoid.webrtcx" + ":" + "webrtc-java";
    assert webrtcx[0] == 'd';
    assert webrtcx[17] == 'x';
    assert !StartsWith("dev.onvoid.webrtcx", "dev.onvoid.webrtc" + ".") by {
      assert "dev.onvoid.webrtcx"[17] == 'x';
    }
    var coroutines := "org.jetbrains.kotlinx" + ":" + "kotlinx-coroutines-core";
    assert coroutines[30] == 'c' && ThirdPartyLibs[0].0[30] == 's';
    assert coroutines[0] == 'o';
    assert !StartsWith("org.jetbrains.kotlinx", "dev.onvoid.webrtc" + ".") by {
      assert "org.jetbrains.kotlinx"[0] == 'o';
    }
  }

  // ------------------------------------------------------- the walk

  /** The edge a dependency of project `p` contributes, if any: a project
      other than `p` itself, or (when libraries are tracked) the label of an
      external module with a group. */
  function EdgeTarget(libs: LibraryTable, withLibraries: bool, p: ProjectPath, d: Dependency): Option<string>
  {
    match d
    case ProjectDependency(target) => if target != p then Some(target) else None
    case ExternalModule(group, name) => if withLibraries && group.Some? then LabelFor(libs, group.value, name) else None
    case OtherDependency => None
  }

  /** The build being walked, the label table and whether libraries are
      tracked: the DOT task tracks entry points and libraries, the Mermaid
      task follows project dependencies only. */
  datatype Setup = Setup(build: Build, libs: LibraryTable, withLibraries: bool)

  /** What the walk has collected so far. */
  datatype Graph = Graph(edges: set<(string, string)>, visited: set<ProjectPath>,
                         entryPoints: set<ProjectPath>, thirdPartyNodes: set<string>)

  const EmptyGraph := Graph({}, {}, {}, {})

  /** `target` is the edge target of some dependency of `p`. */
  ghost predicate DependsOn(s: Setup, p: ProjectPath, target: string)
  {
    p in s.build &&
    exists k, j | 0 <= k < |s.build[p].configurations| && 0 <= j < |s.build[p].configurations[k]| ::
      EdgeTarget(s.libs, s.withLibraries, p, s.build[p].configurations[k][j]) == Some(target)
  }

  /** `x` is the label of one of `p`'s external modules. */
  ghost predicate LibraryOf(s: Setup, p: ProjectPath, x: string)
  {
    p in s.build &&
    exists k, j | 0 <= k < |s.build[p].configurations| && 0 <= j < |s.build[p].configurations[k]| ::
      s.build[p].configurations[k][j].ExternalModule?
      && EdgeTarget(s.libs, s.withLibraries, p, s.build[p].configurations[k][j]) == Some(x)
  }

  predicate Grows(g0: Graph, g1: Graph)
  {
    g0.edges <= g1.edges && g0.visited <= g1.visited
    && g0.entryPoints <= g1.entryPoints && g0.thirdPartyNodes <= g1.thirdPartyNodes
  }

  /** The dependency `d` of `p` has contributed its edge, and the edge's
      target is visited (a project) or recorded (a library). */
  predicate Handled(s: Setup, g: Graph, p: ProjectPath, d: Dependency)
  {
    match EdgeTarget(s.libs, s.withLibraries, p, d)
    case None => true
    case Some(t) => (p, t) in g.edges && (if d.ProjectDependency? then t in g.visited else t in g.thirdPartyNodes)
  }

  /** The first `upto` dependencies of `ds` (only the project ones when
      `projectsOnly`) are handled. */
  predicate HandledUpTo(s: Setup, g: Graph, p: ProjectPath, ds: seq<Dependency>, upto: nat, projectsOnly: bool)
    requires upto <= |ds|
  {
    forall j | 0 <= j < upto && (projectsOnly ==> ds[j].ProjectDependency?) :: Handled(s, g, p, ds[j])
  }

  predicate ConfigurationsHandled(s: Setup, g: Graph, p: ProjectPath, upto: nat)
    requires p in s.build && upto <= |s.build[p].configurations|
  {
    forall k | 0 <= k < upto ::
      HandledUpTo(s, g, p, s.build[p].configurations[k], |s.build[p].configurations[k]|, false)
  }

  /** `p` has been expanded: every dependency of every configuration is
      handled, and an application project is an entry point. */
  predicate Expanded(s: Setup, g: Graph, p: ProjectPath)
  {
    && p in s.build
    && ConfigurationsHandled(s, g, p, |s.build[p].configurations|)
    && (s.withLibraries && IsApplication(s.build[p]) ==> p in g.entryPoints)
  }

  /** From `g0` to `g1` the walk only added: every newly visited project is
      expanded, every new edge starts at one of `sources` or at a newly
      visited project and is one of its dependencies, every new third-party
      node is the label of an external module of such a project, and every
      new entry point is a newly visited application project. */
  ghost predicate Progress(s: Setup, g0: Graph, g1: Graph, sources: set<ProjectPath>)
  {
    && Grows(g0, g1)
    && g1.visited <= s.build.Keys
    && (forall q | q in g1.visited - g0.visited :: Expanded(s, g1, q))
    && (forall e | e in g1.edges - g0.edges :: (e.0 in sources || e.0 in g1.visited - g0.visited) && DependsOn(s, e.0, e.1))
    && (forall x | x in g1.thirdPartyNodes - g0.thirdPartyNodes ::
          exists q :: (q in sources || q in g1.visited - g0.visited) && LibraryOf(s, q, x))
    && (forall q | q in g1.entryPoints - g0.entryPoints ::
          q in g1.visited - g0.visited && q in s.build && s.withLibraries && IsApplication(s.build[q]))
  }

  lemma HandledUpToGrows(s: Setup, g0: Graph, g1: Graph, p: ProjectPath, ds: seq<Dependency>, upto: nat, projectsOnly: bool)
    requires upto <= |ds| && Grows(g0, g1) && HandledUpTo(s, g0, p, ds, upto, projectsOnly)
    ensures HandledUpTo(s, g1, p, ds, upto, projectsOnly)
  {
    forall j | 0 <= j < upto && (projectsOnly ==> ds[j].ProjectDependency?)
      ensures Handled(s, g1, p, ds[j])
    {
      assert Handled(s, g0, p, ds[j]);
    }
  }

  lemma ConfigurationsHandledGrow(s: Setup, g0: Graph, g1: Graph, p: ProjectPath, upto: nat)
    requires p in s.build && upto <= |s.build[p].configurations|
    requires Grows(g0, g1) && ConfigurationsHandled(s, g0, p, upto)
    ensures ConfigurationsHandled(s, g1, p, upto)
  {
    forall k | 0 <= k < upto
      ensures HandledUpTo(s, g1, p, s.build[p].configurations[k], |s.build[p].configurations[k]|, false)
    {
      HandledUpToGrows(s, g0, g1, p, s.build[p].configurations[k], |s.build[p].configurations[k]|, false);
    }
  }

  lemma ExpandedGrows(s: Setup, g0: Graph, g1: Graph, p: ProjectPath)
    requires Grows(g0, g1) && Expanded(s, g0, p)
    ensures Expanded(s, g1, p)
  {
    ConfigurationsHandledGrow(s, g0, g1, p, |s.build[p].configurations|);
  }

  /** Two stretches of progress make one; the second may be confined to
      fewer sources. */
  lemma ProgressComposes(s: Setup, g0: Graph, g1: Graph, g2: Graph, sources: set<ProjectPath>, later: set<ProjectPath>)
    requires Progress(s, g0, g1, sources) && Progress(s, g1, g2, later) && later <= sources
    ensures Progress(s, g0, g2, sources)
  {
    forall q | q in g2.visited - g0.visited
      ensures Expanded(s, g2, q)
    {
      if q in g1.visited {
        ExpandedGrows(s, g1, g2, q);
      }
    }
    forall q | q in g2.entryPoints - g0.entryPoints
      ensures q in g2.visited - g0.visited && q in s.build && s.withLibraries && IsApplication(s.build[q])
    {
      if q in g1.entryPoints {
        assert q in g1.visited - g0.visited;
      } else {
        assert q in g2.entryPoints - g1.entryPoints;
      }
    }
    forall x | x in g2.thirdPartyNodes - g0.thirdPartyNodes
      ensures exists q :: (q in sources || q in g2.visited - g0.visited) && LibraryOf(s, q, x)
    {
      if x in g1.thirdPartyNodes {
        assert x in g1.thirdPartyNodes - g0.thirdPartyNodes;
        var q :| (q in sources || q in g1.visited - g0.visited) && LibraryOf(s, q, x);
      } else {
        assert x in g2.thirdPartyNodes - g1.thirdPartyNodes;
        var q :| (q in later || q in g2.visited - g1.visited) && LibraryOf(s, q, x);
      }
    }
  }

  lemma SubsetRemaining(keys: set<ProjectPath>, smaller: set<ProjectPath>, larger: set<ProjectPath>)
    requires smaller <= larger
    ensures |keys - larger| <= |keys - smaller|
  {
    assert keys - larger <= keys - smaller;
    SubsetCardinality(keys - larger, keys - smaller);
  }

  lemma {:induction false} SubsetCardinality<T>(a: set<T>, b: set<T>)
    requires a <= b
    ensures |a| <= |b|
    decreases |b|
  {
    if a != {} {
      var x :| x in a;
      SubsetCardinality(a - {x}, b - {x});
    }
  }

  /** The depth-first collector of both tasks. */
  class GraphCollector {
    const setup: Setup
    var edges: set<(string, string)>
    var visited: set<ProjectPath>
    var entryPoints: set<ProjectPath>
    var thirdPartyNodes: set<string>

    function State(): Graph
      reads this
    {
      Graph(edges, visited, entryPoints, thirdPartyNodes)
    }

    constructor (setup: Setup)
      ensures this.setup == setup && State() == EmptyGraph
    {
      this.setup := setup;
      edges := {};
      visited := {};
      entryPoints := {};
      thirdPartyNodes := {};
    }

    /** `collectDependencies`: a project already visited changes nothing;
        otherwise it ends up visited and expanded, with everything it
        reaches that was not visited yet. */
    method Collect(p: ProjectPath)
      requires p in setup.build && Closed(setup.build) && visited <= setup.build.Keys
      modifies this
      decreases if p in visited then |setup.build.Keys - visited| else |setup.build.Keys - visited| - 1,
                if p in visited then 0 else 4
      ensures p in visited
      ensures Progress(setup, old(State()), State(), {})
      ensures old(p in visited) ==> State() == old(State())
    {
      if p in visited {
        return;
      }
      ghost var start := State();
      assert setup.build.Keys - (visited + {p}) == (setup.build.Keys - visited) - {p};
      visited := visited + {p};
      if setup.withLibraries && IsApplication(setup.build[p]) {
        entryPoints := entryPoints + {p};
      }
      ghost var marked := State();
      ExpandProject(p);
      assert forall q | q in visited - start.visited :: q == p || q in visited - marked.visited;
      assert forall q | q in entryPoints - start.entryPoints :: q == p || q in entryPoints - marked.entryPoints;
      forall x | x in thirdPartyNodes - start.thirdPartyNodes
        ensures exists q :: q in visited - start.visited && LibraryOf(setup, q, x)
      {
        var q :| (q == p || q in visited - marked.visited) && LibraryOf(setup, q, x);
      }
    }

    method ExpandProject(p: ProjectPath)
      requires p in setup.build && p in visited && Closed(setup.build) && visited <= setup.build.Keys
      requires setup.withLibraries && IsApplication(setup.build[p]) ==> p in entryPoints
      modifies this
      decreases |setup.build.Keys - visited|, 3
      ensures Progress(setup, old(State()), State(), {p})
      ensures Expanded(setup, State(), p)
    {
      var configurations := setup.build[p].configurations;
      for k := 0 to |configurations|
        invariant Progress(setup, old(State()), State(), {p})
        invariant ConfigurationsHandled(setup, State(), p, k)
      {
        ghost var before := State();
        SubsetRemaining(setup.build.Keys, old(visited), visited);
        ExpandConfiguration(p, k);
        ProgressComposes(setup, old(State()), before, State(), {p}, {p});
        ConfigurationsHandledGrow(setup, before, State(), p, k);
      }
    }

    /** One configuration: its project dependencies first, then (when
        libraries are tracked) its external modules. */
    method ExpandConfiguration(p: ProjectPath, k: nat)
      requires p in setup.build && p in visited && Closed(setup.build) && visited <= setup.build.Keys
      requires k < |setup.build[p].configurations|
      modifies this
      decreases |setup.build.Keys - visited|, 2
      ensures Progress(setup, old(State()), State(), {p})
      ensures HandledUpTo(setup, State(), p, setup.build[p].configurations[k], |setup.build[p].configurations[k]|, false)
    {
      var configuration := setup.build[p].configurations[k];
      ExpandProjectDependencies(p, k);
      if !setup.withLibraries {
        assert forall j | 0 <= j < |configuration| && !configuration[j].ProjectDependency? ::
          EdgeTarget(setup.libs, setup.withLibraries, p, configuration[j]) == None;
        return;
      }
      ghost var between := State();
      ExpandExternalModules(p, k);
      ProgressComposes(setup, old(State()), between, State(), {p}, {p});
    }

    /** The project dependencies of one configuration: each other project
        gets its edge and is collected. */
    method ExpandProjectDependencies(p: ProjectPath, k: nat)
      requires p in setup.build && p in visited && Closed(setup.build) && visited <= setup.build.Keys
      requires k < |setup.build[p].configurations|
      modifies this
      decreases |setup.build.Keys - visited|, 1
      ensures Progress(setup, old(State()), State(), {p})
      ensures HandledUpTo(setup, State(), p, setup.build[p].configurations[k], |setup.build[p].configurations[k]|, true)
    {
      var configuration := setup.build[p].configurations[k];
      for j := 0 to |configuration|
        invariant Progress(setup, old(State()), State(), {p})
        invariant HandledUpTo(setup, State(), p, configuration, j, true)
      {
        var d := configuration[j];
        if d.ProjectDependency? && d.path != p {
          ghost var before := State();
          assert d.path in setup.build;
          assert DependsOn(setup, p, d.path) by {
            assert EdgeTarget(setup.libs, setup.withLibraries, p, setup.build[p].configurations[k][j]) == Some(d.path);
          }
          edges := edges + {(p, d.path)};
          ghost var linked := State();
          assert Progress(setup, before, linked, {p});
          ProgressComposes(setup, old(State()), before, linked, {p}, {p});
          SubsetRemaining(setup.build.Keys, old(visited), visited);
          Collect(d.path);
          ProgressComposes(setup, old(State()), linked, State(), {p}, {});
          HandledUpToGrows(setup, before, State(), p, configuration, j, true);
        }
      }
    }

    /** The external modules of one configuration: each with a group and a
        label gets its edge and its library node. */
    method ExpandExternalModules(p: ProjectPath, k: nat)
      requires p in setup.build && visited <= setup.build.Keys && setup.withLibraries
      requires k < |setup.build[p].configurations|
      requires HandledUpTo(setup, State(), p, setup.build[p].configurations[k], |setup.build[p].configurations[k]|, true)
      modifies this
      ensures Progress(setup, old(State()), State(), {p})
      ensures visited == old(visited) && entryPoints == old(entryPoints)
      ensures HandledUpTo(setup, State(), p, setup.build[p].configurations[k], |setup.build[p].configurations[k]|, false)
    {
      var configuration := setup.build[p].configurations[k];
      for j := 0 to |configuration|
        invariant Progress(setup, old(State()), State(), {p})
        invariant visited == old(visited) && entryPoints == old(entryPoints)
        invariant HandledUpTo(setup, State(), p, configuration, |configuration|, true)
        invariant HandledUpTo(setup, State(), p, configuration, j, false)
      {
        var d := configuration[j];
        ghost var before := State();
        if d.ExternalModule? && d.group.Some? {
          var found := LabelFor(setup.libs, d.group.value, d.name);
          if found.Some? {
            edges := edges + {(p, found.value)};
            thirdPartyNodes := thirdPartyNodes + {found.value};
          }
        }
        LibraryStep(setup, old(State()), before, State(), p, k, j);
      }
    }

    /** The Gradle graph task walks over its starting projects. Afterwards each of them
        is visited, and, from the empty graph, every visited project is
        expanded, every edge is a dependency of a visited project and every
        entry point a visited application project. */
    method CollectFrom(roots: seq<ProjectPath>)
      requires Closed(setup.build) && forall r | r in roots :: r in setup.build
      requires State() == EmptyGraph
      modifies this
      ensures forall r | r in roots :: r in visited
      ensures Progress(setup, EmptyGraph, State(), {})
    {
      for i := 0 to |roots|
        invariant forall r | r in roots[..i] :: r in visited
        invariant Progress(setup, EmptyGraph, State(), {})
      {
        ghost var before := State();
        Collect(roots[i]);
        ProgressComposes(setup, EmptyGraph, before, State(), {}, {});
        assert roots[..i + 1] == roots[..i] + [roots[i]];
      }
    }
  }

  /** One step over the external modules of configuration k of p: a module
      with a group and a label adds its edge and its library node, any other
      dependency changes nothing. */
  lemma LibraryStep(s: Setup, g0: Graph, g: Graph, g': Graph, p: ProjectPath, k: nat, j: nat)
    requires p in s.build && s.withLibraries && g.visited <= s.build.Keys
    requires k < |s.build[p].configurations| && j < |s.build[p].configurations[k]|
    requires var ds := s.build[p].configurations[k];
      Progress(s, g0, g, {p}) && HandledUpTo(s, g, p, ds, |ds|, true) && HandledUpTo(s, g, p, ds, j, false)
    requires var d := s.build[p].configurations[k][j];
      g' == if d.ExternalModule? && d.group.Some? && LabelFor(s.libs, d.group.value, d.name).Some?
            then (var lib := LabelFor(s.libs, d.group.value, d.name).value;
              Graph(g.edges + {(p, lib)}, g.visited, g.entryPoints, g.thirdPartyNodes + {lib}))
            else g
    ensures var ds := s.build[p].configurations[k];
      Progress(s, g0, g', {p}) && HandledUpTo(s, g', p, ds, |ds|, true) && HandledUpTo(s, g', p, ds, j + 1, false)
  {
    var ds := s.build[p].configurations[k];
    var d := ds[j];
    if g' != g {
      var lib := LabelFor(s.libs, d.group.value, d.name).value;
      assert EdgeTarget(s.libs, s.withLibraries, p, ds[j]) == Some(lib);
      assert DependsOn(s, p, lib);
      assert LibraryOf(s, p, lib);
      assert Progress(s, g, g', {p});
      ProgressComposes(s, g0, g, g', {p}, {p});
      HandledUpToGrows(s, g, g', p, ds, |ds|, true);
      HandledUpToGrows(s, g, g', p, ds, j, false);
    }
  }

  /** A finished walk is closed: every project dependency of a visited
      project is visited, and, unless it is the project itself, its edge is
      present. */
  lemma WalkIsClosed(s: Setup, g: Graph, q: ProjectPath, k: nat, j: nat)
    requires Progress(s, EmptyGraph, g, {}) && q in g.visited
    requires k < |s.build[q].configurations| && j < |s.build[q].configurations[k]|
    requires s.build[q].configurations[k][j].ProjectDependency?
    ensures s.build[q].configurations[k][j].path in g.visited
    ensures s.build[q].configurations[k][j].path != q ==> (q, s.build[q].configurations[k][j].path) in g.edges
  {
    assert Expanded(s, g, q);
    assert HandledUpTo(s, g, q, s.build[q].configurations[k], |s.build[q].configurations[k]|, false);
    assert Handled(s, g, q, s.build[q].configurations[k][j]);
  }

  /** `V` holds the starting projects, lies in the build and holds every
      project dependency of its members. */
  ghost predicate ClosedUnderProjects(s: Setup, roots: seq<ProjectPath>, V: set<ProjectPath>)
  {
    && (forall r | r in roots :: r in V)
    && V <= s.build.Keys
    && forall q, k, j | q in V && q in s.build && 0 <= k < |s.build[q].configurations|
                        && 0 <= j < |s.build[q].configurations[k]| && s.build[q].configurations[k][j].ProjectDependency? ::
         s.build[q].configurations[k][j].path in V
  }

  /** What the tasks collect over the projects `V`: the edges are exactly the
      dependency edges of members of `V`, the third-party nodes exactly the
      labels of their external modules, and the entry points exactly their
      application projects (when entry points are tracked). */
  ghost predicate WalkResult(s: Setup, V: set<ProjectPath>, edges: set<(string, string)>,
                             nodes: set<string>, entryPoints: set<ProjectPath>)
  {
    && (forall e :: e in edges <==> e.0 in V && DependsOn(s, e.0, e.1))
    && (forall x :: x in nodes <==> exists q :: q in V && LibraryOf(s, q, x))
    && (forall q :: q in entryPoints <==> q in V && q in s.build && s.withLibraries && IsApplication(s.build[q]))
  }

  /** A walk from the empty graph that visited the starting projects visited
      a set closed under project dependencies and collected exactly what that
      set contributes. */
  lemma WalkCharacterised(s: Setup, g: Graph, roots: seq<ProjectPath>)
    requires Progress(s, EmptyGraph, g, {}) && forall r | r in roots :: r in g.visited
    ensures ClosedUnderProjects(s, roots, g.visited)
    ensures WalkResult(s, g.visited, g.edges, g.thirdPartyNodes, g.entryPoints)
  {
    forall q, k, j | q in g.visited && q in s.build && 0 <= k < |s.build[q].configurations|
                     && 0 <= j < |s.build[q].configurations[k]| && s.build[q].configurations[k][j].ProjectDependency?
      ensures s.build[q].configurations[k][j].path in g.visited
    {
      WalkIsClosed(s, g, q, k, j);
    }
    forall e: (string, string) | e.0 in g.visited && DependsOn(s, e.0, e.1)
      ensures e in g.edges
    {
      var k, j :| 0 <= k < |s.build[e.0].configurations| && 0 <= j < |s.build[e.0].configurations[k]|
                  && EdgeTarget(s.libs, s.withLibraries, e.0, s.build[e.0].configurations[k][j]) == Some(e.1);
      HandledIn(s, g, e.0, k, j);
    }
    forall x, q | q in g.visited && LibraryOf(s, q, x)
      ensures x in g.thirdPartyNodes
    {
      var k, j :| 0 <= k < |s.build[q].configurations| && 0 <= j < |s.build[q].configurations[k]|
                  && s.build[q].configurations[k][j].ExternalModule?
                  && EdgeTarget(s.libs, s.withLibraries, q, s.build[q].configurations[k][j]) == Some(x);
      HandledIn(s, g, q, k, j);
    }
    forall q | q in g.visited && q in s.build && s.withLibraries && IsApplication(s.build[q])
      ensures q in g.entryPoints
    {
      assert Expanded(s, g, q);
    }
    assert forall q | q in g.entryPoints :: q in g.entryPoints - EmptyGraph.entryPoints;
    assert forall x | x in g.thirdPartyNodes :: x in g.thirdPartyNodes - EmptyGraph.thirdPartyNodes;
  }

  /** Every dependency of a project visited by a finished walk is handled. */
  lemma HandledIn(s: Setup, g: Graph, q: ProjectPath, k: nat, j: nat)
    requires Progress(s, EmptyGraph, g, {}) && q in g.visited
    requires k < |s.build[q].configurations| && j < |s.build[q].configurations[k]|
    ensures Handled(s, g, q, s.build[q].configurations[k][j])
  {
    assert Expanded(s, g, q);
    assert HandledUpTo(s, g, q, s.build[q].configurations[k], |s.build[q].configurations[k]|, false);
  }

  /** The starting projects: the subprojects when run on the root project,
      otherwise the current one. */
  function Roots(isRoot: bool, current: ProjectPath, subprojects: seq<ProjectPath>): seq<ProjectPath>
  {
    if isRoot then subprojects else [current]
  }
  // ---------------------------------------------------------- sorted output

  predicate SortedBy<T>(s: seq<T>, key: T -> string)
  {
    forall i, j :: 0 <= i < j < |s| ==> LexLessEq(key(s[i]), key(s[j]))
  }

  predicate Distinct<T(==)>(s: seq<T>)
  {
    forall i, j :: 0 <= i < j < |s| ==> s[i] != s[j]
  }

  lemma {:induction false} MinimumExists<T>(s: set<T>, key: T -> string)
    requires s != {}
    ensures exists m :: m in s && forall x | x in s :: LexLessEq(key(m), key(x))
    decreases |s|
  {
    var y :| y in s;
    if s - {y} == {} {
      assert s == {y};
      assert LexLessEq(key(y), key(y)) by { LexTotal(key(y), key(y)); }
    } else {
      MinimumExists(s - {y}, key);
      var m :| m in s - {y} && forall x | x in s - {y} :: LexLessEq(key(m), key(x));
      LexTotal(key(m), key(y));
      if LexLessEq(key(m), key(y)) {
        assert forall x | x in s :: LexLessEq(key(m), key(x));
      } else {
        forall x | x in s
          ensures LexLessEq(key(y), key(x))
        {
          if x == y {
            LexTotal(key(y), key(y));
          } else {
            LexTransitive(key(y), key(m), key(x));
          }
        }
      }
    }
  }

  /** `sortedBy(key)` over a set: every element once, in key order. */
  method SortBy<T(==)>(elements: set<T>, key: T -> string) returns (r: seq<T>)
    ensures SortedBy(r, key) && Distinct(r)
    ensures forall x :: x in r <==> x in elements
    ensures |r| == |elements|
  {
    r := [];
    var rest := elements;
    while rest != {}
      invariant forall x :: x in elements <==> x in r || x in rest
      invariant forall x | x in rest :: x !in r
      invariant |r| + |rest| == |elements|
      invariant SortedBy(r, key) && Distinct(r)
      invariant forall i, x | 0 <= i < |r| && x in rest :: LexLessEq(key(r[i]), key(x))
      decreases |rest|
    {
      MinimumExists(rest, key);
      var m :| m in rest && forall x | x in rest :: LexLessEq(key(m), key(x));
      r := r + [m];
      rest := rest - {m};
    }
  }

  /** Two sequences sorted by the natural order holding the same strings
      once each are equal: the sorted output is determined by the set. */
  lemma {:induction false} SortedStringsUnique(a: seq<string>, b: seq<string>)
    requires SortedBy(a, s => s) && SortedBy(b, s => s) && Distinct(a) && Distinct(b)
    requires forall x :: x in a <==> x in b
    ensures a == b
    decreases |a|
  {
    assert |a| > 0 ==> a[0] in b;
    assert |b| > 0 ==> b[0] in a;
    if |a| > 0 && |b| > 0 {
      var i :| 0 <= i < |b| && b[i] == a[0];
      var j :| 0 <= j < |a| && a[j] == b[0];
      assert LexLessEq(b[0], a[0]) by { if i > 0 { assert LexLessEq(b[0], b[i]); } else { LexTotal(b[0], b[0]); } }
      assert LexLessEq(a[0], b[0]) by { if j > 0 { assert LexLessEq(a[0], a[j]); } else { LexTotal(a[0], a[0]); } }
      LexAntisymmetric(a[0], b[0]);
      forall x
        ensures x in a[1..] <==> x in b[1..]
      {
        if x in a[1..] {
          assert x != a[0];
          assert x in b;
        }
        if x in b[1..] {
          assert x != b[0];
          assert x in a;
        }
      }
      SortedStringsUnique(a[1..], b[1..]);
      assert a == [a[0]] + a[1..] && b == [b[0]] + b[1..];
    }
  }

  // ------------------------------------------------------------ DOT output

  function Quoted(s: string): string
  {
    "\"" + s + "\""
  }

  function DotEdgeKey(e: (string, string)): string
  {
    e.0 + "->" + e.1
  }

  const DotHeader: seq<string> := [
    "\n// Copy content below into a .dot file or viewer",
    "digraph ProjectDependencies {",
    "  // Global graph attributes",
    "  rankdir=LR;",
    "  node [shape=box, style=\"rounded,filled\", fillcolor=\"#E3F2FD\", fontname=\"Helvetica\"];",
    "  edge [color=\"#546E7A\"];",
    ""
  ]

  /** One `"  \"<name>\"<suffix>"` line per name, in order: the entry point
      lines carry the highlight colour, the third-party node lines only ';'. */
  function QuotedLines(names: seq<string>, suffix: string): (lines: seq<string>)
    ensures |lines| == |names|
    ensures forall i :: 0 <= i < |names| ==> lines[i] == "  " + Quoted(names[i]) + suffix
  {
    seq(|names|, i requires 0 <= i < |names| => "  " + Quoted(names[i]) + suffix)
  }

  function DotEdgeLines(edges: seq<(string, string)>): (lines: seq<string>)
    ensures |lines| == |edges|
    ensures forall i :: 0 <= i < |edges| ==> lines[i] == "  " + Quoted(edges[i].0) + " -> " + Quoted(edges[i].1) + ";"
  {
    seq(|edges|, i requires 0 <= i < |edges| => "  " + Quoted(edges[i].0) + " -> " + Quoted(edges[i].1) + ";")
  }

  /** The printed lines: header, entry points and third-party nodes (each
      section only when non-empty), edges, closing brace. */
  function DotLines(entryPoints: seq<string>, nodes: seq<string>, edges: seq<(string, string)>): seq<string>
  {
    DotHeader
    + (if |entryPoints| == 0 then [] else ["  // Entry Points"] + QuotedLines(entryPoints, " [fillcolor=\"#C8E6C9\"];") + [""])
    + (if |nodes| == 0 then []
       else ["  // Third-party Libraries", "  node [fillcolor=\"#FFF9C4\", shape=ellipse];"] + QuotedLines(nodes, ";")
            + ["  node [shape=box, style=\"rounded,filled\", fillcolor=\"#E3F2FD\"]; // Reset style", ""])
    + DotEdgeLines(edges)
    + ["}\n"]
  }

  /** The DOT task: collect from the starting projects, then print entry
      points, third-party nodes and edges, each sorted and each once. */
  method GenerateDot(build: Build, isRoot: bool, current: ProjectPath, subprojects: seq<ProjectPath>)
    returns (entryPoints: seq<string>, nodes: seq<string>, edges: seq<(string, string)>, lines: seq<string>)
    requires Closed(build) && forall r | r in Roots(isRoot, current, subprojects) :: r in build
    ensures SortedBy(entryPoints, s => s) && Distinct(entryPoints)
    ensures SortedBy(nodes, s => s) && Distinct(nodes)
    ensures SortedBy(edges, DotEdgeKey) && Distinct(edges)
    ensures forall e | e in edges :: DependsOn(Setup(build, ThirdPartyLibs, true), e.0, e.1)
    ensures forall q | q in entryPoints :: q in build && IsApplication(build[q])
    ensures forall r | r in Roots(isRoot, current, subprojects) && IsApplication(build[r]) :: r in entryPoints
    ensures forall r, k, j | r in Roots(isRoot, current, subprojects) && RootEdge(build, r, k, j) ::
      (r, build[r].configurations[k][j].path) in edges
    ensures exists V ::
      && ClosedUnderProjects(Setup(build, ThirdPartyLibs, true), Roots(isRoot, current, subprojects), V)
      && WalkResult(Setup(build, ThirdPartyLibs, true), V, set e | e in edges, set x | x in nodes, set q | q in entryPoints)
    ensures lines == DotLines(entryPoints, nodes, edges)
  {
    var collector := new GraphCollector(Setup(build, ThirdPartyLibs, true));
    collector.CollectFrom(Roots(isRoot, current, subprojects));
    var g := collector.State();
    entryPoints := SortBy(collector.entryPoints, s => s);
    nodes := SortBy(collector.thirdPartyNodes, s => s);
    edges := SortBy(collector.edges, DotEdgeKey);
    forall r | r in Roots(isRoot, current, subprojects) && IsApplication(build[r])
      ensures r in entryPoints
    {
      assert Expanded(collector.setup, g, r);
    }
    forall r, k, j | r in Roots(isRoot, current, subprojects) && RootEdge(build, r, k, j)
      ensures (r, build[r].configurations[k][j].path) in edges
    {
      WalkIsClosed(collector.setup, g, r, k, j);
    }
    WalkCharacterised(collector.setup, g, Roots(isRoot, current, subprojects));
    ElementsOf(edges, g.edges);
    ElementsOf(nodes, g.thirdPartyNodes);
    ElementsOf(entryPoints, g.entryPoints);
    assert WalkResult(collector.setup, g.visited, set e | e in edges, set x | x in nodes, set q | q in entryPoints);
    lines := DotLines(entryPoints, nodes, edges);
  }

  /** A sequence holding exactly the members of a set has that set of elements. */
  lemma ElementsOf<T>(s: seq<T>, elements: set<T>)
    requires forall x :: x in s <==> x in elements
    ensures (set x | x in s) == elements
  {
  }

  /** The `j`-th dependency of configuration `k` of `r` is another project. */
  predicate RootEdge(build: Build, r: ProjectPath, k: int, j: int)
  {
    r in build && 0 <= k < |build[r].configurations| && 0 <= j < |build[r].configurations[k]|
    && build[r].configurations[k][j].ProjectDependency? && build[r].configurations[k][j].path != r
  }

  // -------------------------------------------------------- Mermaid output

  /** The node id: one leading ':' dropped, every ':' and '-' made '_'. */
  function MermaidId(path: ProjectPath): (id: string)
    ensures |id| == |RemovePrefix(path, ":")|
    ensures forall i :: 0 <= i < |id| ==> id[i] != ':' && id[i] != '-'
    ensures forall i :: 0 <= i < |id| ==>
      id[i] == (if RemovePrefix(path, ":")[i] in {':', '-'} then '_' else RemovePrefix(path, ":")[i])
  {
    ReplaceChar(ReplaceChar(RemovePrefix(path, ":"), ':', '_'), '-', '_')
  }

  /** Source ids fall back to "root" when empty; target ids do not. */
  function SourceId(path: ProjectPath): string
  {
    var id := MermaidId(path);
    if id == "" then "root" else id
  }

  /** The id is empty exactly for the root project's path ":" (or an empty
      path), so only the root's outgoing edges start at "root". */
  lemma EmptyIdIsRoot(path: ProjectPath)
    ensures MermaidId(path) == "" <==> path == "" || path == ":"
    ensures SourceId(path) == "root" <==> path == "" || path == ":" || MermaidId(path) == "root"
  {
    if path != "" && path != ":" {
      if StartsWith(path, ":") {
        assert |path| >= 2;
      }
    }
  }

  /** Sanitising is not injective: a path with '-' and one with ':' in the
      same place name the same node. */
  lemma IdsCanCollide()
    ensures MermaidId(":a-b") == MermaidId(":a:b") == "a_b"
  {
    assert RemovePrefix(":a-b", ":") == "a-b";
    assert RemovePrefix(":a:b", ":") == "a:b";
    var dashed := MermaidId(":a-b");
    var coloned := MermaidId(":a:b");
    assert dashed[0] == 'a' && dashed[1] == '_' && dashed[2] == 'b';
    assert coloned[0] == 'a' && coloned[1] == '_' && coloned[2] == 'b';
  }

  function MermaidEdgeKey(e: (string, string)): string
  {
    e.0 + "-->" + e.1
  }

  function MermaidEdgeLines(edges: seq<(string, string)>): (lines: seq<string>)
    ensures |lines| == |edges|
    ensures forall i :: 0 <= i < |edges| ==> lines[i] == "    " + SourceId(edges[i].0) + " --> " + MermaidId(edges[i].1)
  {
    seq(|edges|, i requires 0 <= i < |edges| => "    " + SourceId(edges[i].0) + " --> " + MermaidId(edges[i].1))
  }

  function MermaidLines(edges: seq<(string, string)>): seq<string>
  {
    ["\n```mermaid", "graph TD"] + MermaidEdgeLines(edges) + ["```\n"]
  }

  /** The Mermaid task: project edges only, sorted by "from-->to", each
      once, with sanitised ids. */
  method GenerateMermaid(build: Build, isRoot: bool, current: ProjectPath, subprojects: seq<ProjectPath>)
    returns (edges: seq<(string, string)>, lines: seq<string>)
    requires Closed(build) && forall r | r in Roots(isRoot, current, subprojects) :: r in build
    ensures SortedBy(edges, MermaidEdgeKey) && Distinct(edges)
    ensures forall e | e in edges :: e.0 != e.1 && e.1 in build && DependsOn(Setup(build, [], false), e.0, e.1)
    ensures forall r, k, j | r in Roots(isRoot, current, subprojects) && RootEdge(build, r, k, j) ::
      (r, build[r].configurations[k][j].path) in edges
    ensures exists V ::
      && ClosedUnderProjects(Setup(build, [], false), Roots(isRoot, current, subprojects), V)
      && WalkResult(Setup(build, [], false), V, set e | e in edges, {}, {})
    ensures lines == MermaidLines(edges)
  {
    var collector := new GraphCollector(Setup(build, [], false));
    collector.CollectFrom(Roots(isRoot, current, subprojects));
    var g := collector.State();
    edges := SortBy(collector.edges, MermaidEdgeKey);
    forall e | e in edges
      ensures e.0 != e.1 && e.1 in build
    {
      ProjectEdge(build, e.0, e.1);
    }
    forall r, k, j | r in Roots(isRoot, current, subprojects) && RootEdge(build, r, k, j)
      ensures (r, build[r].configurations[k][j].path) in edges
    {
      WalkIsClosed(collector.setup, g, r, k, j);
    }
    WalkCharacterised(collector.setup, g, Roots(isRoot, current, subprojects));
    ElementsOf(edges, g.edges);
    NoLibrariesWithoutTracking(collector.setup, g);
    lines := MermaidLines(edges);
  }

  /** Without library tracking a walk records no third-party node and no
      entry point. */
  lemma NoLibrariesWithoutTracking(s: Setup, g: Graph)
    requires Progress(s, EmptyGraph, g, {}) && !s.withLibraries
    ensures g.thirdPartyNodes == {} && g.entryPoints == {}
  {
    assert forall x | x in g.thirdPartyNodes :: x in g.thirdPartyNodes - EmptyGraph.thirdPartyNodes;
    assert forall q, x :: !LibraryOf(s, q, x);
    assert forall x :: x !in g.thirdPartyNodes;
    assert forall q | q in g.entryPoints :: q in g.entryPoints - EmptyGraph.entryPoints;
    assert forall q :: q !in g.entryPoints;
  }

  /** Without libraries every edge is a project dependency of another
      project of the build: there are no self-edges. */
  lemma ProjectEdge(build: Build, p: ProjectPath, target: string)
    requires Closed(build) && DependsOn(Setup(build, [], false), p, target)
    ensures p != target && target in build
  {
    var k, j :| 0 <= k < |build[p].configurations| && 0 <= j < |build[p].configurations[k]|
                && EdgeTarget([], false, p, build[p].configurations[k][j]) == Some(target);
  }
}
