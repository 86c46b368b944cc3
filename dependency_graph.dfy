/**
 * The resource dependency graph the module analyser builds: one node per
 * resource, explicit edges from `depends_on` lists and implicit edges from
 * `T.N` references, and a single module boundary holding every node.
 */
module DependencyGraph {
  import opened Wrappers
  import opened Strs
  import Parser
  import Analyzer

  type Resource = Parser.TerraformResource

  datatype ResourceNode = ResourceNode(
    id: string,
    resourceType: string,
    resourceName: string,
    modulePath: string,
    file: string,
    provider: string)

  datatype DependencyType = Explicit | Implicit

  datatype ResourceEdge = ResourceEdge(
    source: string,
    target: string,
    dependencyType: DependencyType,
    attribute: Option<string>)

  datatype ModuleBoundary = ModuleBoundary(modulePath: string, resourceIds: seq<string>)

  datatype ResourceDependencyGraph = ResourceDependencyGraph(
    nodes: seq<ResourceNode>,
    edges: seq<ResourceEdge>,
    moduleBoundaries: seq<ModuleBoundary>)

  /** A resource's address `T.N`. */
  function ResourceId(r: Resource): string {
    r.resourceType + "." + r.name
  }

  function NodeOf(directory: string, r: Resource): ResourceNode {
    ResourceNode(ResourceId(r), r.resourceType, r.name, directory, r.file, r.provider)
  }

  /** One node per resource, in order, each carrying the resource's address and the project directory. */
  function NodesOf(directory: string, rs: seq<Resource>): (ns: seq<ResourceNode>)
    ensures |ns| == |rs|
    ensures forall i :: 0 <= i < |rs| ==>
      ns[i].id == ResourceId(rs[i]) && ns[i].resourceType == rs[i].resourceType
      && ns[i].resourceName == rs[i].name && ns[i].modulePath == directory && ns[i].file == rs[i].file
  {
    if |rs| == 0 then []
    else NodesOf(directory, rs[..|rs| - 1]) + [NodeOf(directory, rs[|rs| - 1])]
  }

  /** The keys of the address lookup table. */
  function KnownIds(rs: seq<Resource>): set<string> {
    if |rs| == 0 then {}
    else KnownIds(rs[..|rs| - 1]) + {ResourceId(rs[|rs| - 1])}
  }

  /** An address is known exactly when some resource has it. */
  lemma {:induction false} KnownIdsSpec(rs: seq<Resource>, id: string)
    ensures id in KnownIds(rs) <==> exists i :: 0 <= i < |rs| && ResourceId(rs[i]) == id
  {
    if |rs| > 0 {
      var init := rs[..|rs| - 1];
      KnownIdsSpec(init, id);
      if exists i :: 0 <= i < |init| && ResourceId(init[i]) == id {
        var i :| 0 <= i < |init| && ResourceId(init[i]) == id;
        assert rs[i] == init[i];
      }
      if exists i :: 0 <= i < |rs| && ResourceId(rs[i]) == id {
        var i :| 0 <= i < |rs| && ResourceId(rs[i]) == id;
        if i < |init| { assert init[i] == rs[i]; }
      }
    }
  }

  /** Every node's id is a known address. */
  lemma NodeIdsKnown(directory: string, rs: seq<Resource>, i: nat)
    requires i < |rs|
    ensures NodesOf(directory, rs)[i].id in KnownIds(rs)
  {
    KnownIdsSpec(rs, ResourceId(rs[i]));
  }

  /** The ids of the nodes, for the module boundary. */
  function IdsOf(ns: seq<ResourceNode>): (ids: seq<string>)
    ensures |ids| == |ns|
    ensures forall i :: 0 <= i < |ns| ==> ids[i] == ns[i].id
  {
    if |ns| == 0 then [] else IdsOf(ns[..|ns| - 1]) + [ns[|ns| - 1].id]
  }

  // ---------------------------------------------------------------------
  // Explicit edges: `depends_on = [ … ]`
  // ---------------------------------------------------------------------

  predicate IsBracket(c: char) { c == '[' || c == ']' }

  function StripStartBrackets(s: string): (r: string)
    ensures |r| <= |s| && r == s[|s| - |r|..]
    ensures r == [] || !IsBracket(r[0])
    decreases |s|
  {
    if |s| > 0 && IsBracket(s[0]) then StripStartBrackets(s[1..]) else s
  }

  function StripEndBrackets(s: string): (r: string)
    ensures |r| <= |s| && r == s[..|r|]
    ensures r == [] || !IsBracket(r[|r| - 1])
    decreases |s|
  {
    if |s| > 0 && IsBracket(s[|s| - 1]) then StripEndBrackets(s[..|s| - 1]) else s
  }

  /** `trim_matches(|c| c == '[' || c == ']')`: no bracket is left at either end. */
  function StripBrackets(s: string): (r: string)
    ensures |r| <= |s|
    ensures r == [] || (!IsBracket(r[0]) && !IsBracket(r[|r| - 1]))
  {
    StripEndBrackets(StripStartBrackets(s))
  }

  /** A `depends_on` entry as looked up: trimmed of whitespace, then of brackets. */
  function CleanEntry(p: string): string {
    StripBrackets(Trim(p))
  }

  /** The comma-separated entries of every `depends_on` list of a file, in order. */
  function RawEntries(lists: seq<string>): seq<string> {
    if |lists| == 0 then []
    else RawEntries(lists[..|lists| - 1]) + Split(lists[|lists| - 1], ",")
  }

  /** `content.contains("resource \"T\"")` for the node's type. */
  predicate Declares(content: string, n: ResourceNode) {
    Contains(content, "resource \"" + n.resourceType + "\"")
  }

  /** The first node whose type is declared in the file: the source of every explicit edge of that file. */
  function FirstDeclared(nodes: seq<ResourceNode>, content: string): Option<ResourceNode> {
    if |nodes| == 0 then None
    else if Declares(content, nodes[0]) then Some(nodes[0])
    else FirstDeclared(nodes[1..], content)
  }

  /** FirstDeclared finds a declared node with no declared node before it, and finds none only when none is declared. */
  lemma {:induction false} FirstDeclaredSpec(nodes: seq<ResourceNode>, content: string)
    ensures var r := FirstDeclared(nodes, content);
      (r.Some? ==> (exists i :: 0 <= i < |nodes| && nodes[i] == r.value
                     && Declares(content, nodes[i]) && forall j :: 0 <= j < i ==> !Declares(content, nodes[j])))
      && (r.None? <==> forall i :: 0 <= i < |nodes| ==> !Declares(content, nodes[i]))
    decreases |nodes|
  {
    if |nodes| > 0 && !Declares(content, nodes[0]) {
      FirstDeclaredSpec(nodes[1..], content);
      var r := FirstDeclared(nodes[1..], content);
      if r.Some? {
        var i :| 0 <= i < |nodes[1..]| && nodes[1..][i] == r.value
                 && Declares(content, nodes[1..][i]) && forall j :: 0 <= j < i ==> !Declares(content, nodes[1..][j]);
        assert nodes[i + 1] == r.value;
        forall j | 0 <= j < i + 1 ensures !Declares(content, nodes[j]) {
          if j > 0 { assert nodes[j] == nodes[1..][j - 1]; }
        }
      } else {
        forall i | 0 <= i < |nodes| ensures !Declares(content, nodes[i]) {
          if i > 0 { assert nodes[i] == nodes[1..][i - 1]; }
        }
      }
    }
  }

  /** The edge one `depends_on` entry yields, if its address is known and some node's type is declared in the file. */
  function ExplicitEdge(nodes: seq<ResourceNode>, known: set<string>, content: string, entry: string): Option<ResourceEdge> {
    var target := CleanEntry(entry);
    if target in known then
      match FirstDeclared(nodes, content)
      case Some(n) => Some(ResourceEdge(n.id, target, Explicit, Some("depends_on")))
      case None => None
    else None
  }

  /** An optional edge as a list of zero or one edges. */
  function Listed(e: Option<ResourceEdge>): (r: seq<ResourceEdge>)
    ensures |r| <= 1 && (e.Some? <==> |r| == 1) && (e.Some? ==> r[0] == e.value)
  {
    match e
    case Some(x) => [x]
    case None => []
  }

  /** The edges a run of entries yields, in order. */
  function EntryEdges(nodes: seq<ResourceNode>, known: set<string>, content: string, entries: seq<string>): seq<ResourceEdge> {
    if |entries| == 0 then []
    else
      EntryEdges(nodes, known, content, entries[..|entries| - 1])
      + Listed(ExplicitEdge(nodes, known, content, entries[|entries| - 1]))
  }

  lemma {:induction false} EntryEdgesAppend(nodes: seq<ResourceNode>, known: set<string>, content: string,
                                             a: seq<string>, b: seq<string>)
    ensures EntryEdges(nodes, known, content, a + b) == EntryEdges(nodes, known, content, a) + EntryEdges(nodes, known, content, b)
    decreases |b|
  {
    if |b| == 0 {
      assert a + b == a;
    } else {
      assert (a + b)[..|a + b| - 1] == a + b[..|b| - 1];
      EntryEdgesAppend(nodes, known, content, a, b[..|b| - 1]);
    }
  }

  function ExplicitEdges(nodes: seq<ResourceNode>, known: set<string>, f: Analyzer.FileScan): seq<ResourceEdge> {
    EntryEdges(nodes, known, f.content, RawEntries(f.dependsOn))
  }

  // ---------------------------------------------------------------------
  // Implicit edges: references `T.N`
  // ---------------------------------------------------------------------

  function RefId(reference: (string, string)): string {
    reference.0 + "." + reference.1
  }

  /** Some implicit edge already runs from `source` to `target`. */
  predicate HasImplicit(edges: seq<ResourceEdge>, source: string, target: string) {
    exists i :: 0 <= i < |edges| && edges[i].source == source && edges[i].target == target
                && edges[i].dependencyType == Implicit
  }

  /** Add an implicit edge unless one with the same ends is already present. */
  function AddImplicit(edges: seq<ResourceEdge>, source: string, target: string): (r: seq<ResourceEdge>)
    ensures HasImplicit(r, source, target)
  {
    if HasImplicit(edges, source, target) then edges
    else
      var r := edges + [ResourceEdge(source, target, Implicit, None)];
      assert r[|edges|].source == source;
      r
  }

  /** The edges one reference adds: from every resource of the file other than the referenced one. */
  function AddFromResources(edges: seq<ResourceEdge>, rs: seq<Resource>, fileName: string, target: string): seq<ResourceEdge> {
    if |rs| == 0 then edges
    else
      var e := AddFromResources(edges, rs[..|rs| - 1], fileName, target);
      var r := rs[|rs| - 1];
      if r.file == fileName && ResourceId(r) != target then AddImplicit(e, ResourceId(r), target) else e
  }

  /** The references of one file, in order; a reference to an unknown address adds nothing. */
  function AddReferences(edges: seq<ResourceEdge>, rs: seq<Resource>, known: set<string>, fileName: string,
                         refs: seq<(string, string)>): seq<ResourceEdge>
  {
    if |refs| == 0 then edges
    else
      var e := AddReferences(edges, rs, known, fileName, refs[..|refs| - 1]);
      var target := RefId(refs[|refs| - 1]);
      if target in known then AddFromResources(e, rs, fileName, target) else e
  }

  /** One file: its explicit edges first, then its implicit ones. */
  function FileEdges(edges: seq<ResourceEdge>, nodes: seq<ResourceNode>, rs: seq<Resource>, known: set<string>,
                     f: Analyzer.FileScan): seq<ResourceEdge>
  {
    AddReferences(edges + ExplicitEdges(nodes, known, f), rs, known, f.name, f.references)
  }

  function EdgesOf(nodes: seq<ResourceNode>, rs: seq<Resource>, known: set<string>, files: seq<Analyzer.FileScan>)
    : seq<ResourceEdge>
  {
    if |files| == 0 then []
    else FileEdges(EdgesOf(nodes, rs, known, files[..|files| - 1]), nodes, rs, known, files[|files| - 1])
  }

  /** The graph of a configuration whose files scan to `files`, taken in that order. */
  function GraphOf(analysis: Analyzer.TerraformAnalysis, files: seq<Analyzer.FileScan>): ResourceDependencyGraph {
    var nodes := NodesOf(analysis.projectDirectory, analysis.resources);
    var known := KnownIds(analysis.resources);
    ResourceDependencyGraph(
      nodes,
      EdgesOf(nodes, analysis.resources, known, files),
      [ModuleBoundary(analysis.projectDirectory, IdsOf(nodes))])
  }

  // ---------------------------------------------------------------------
  // What every graph satisfies
  // ---------------------------------------------------------------------

  /** Every edge joins two known addresses. */
  predicate Closed(edges: seq<ResourceEdge>, known: set<string>) {
    forall i :: 0 <= i < |edges| ==> edges[i].source in known && edges[i].target in known
  }

  /** No implicit edge is a self-loop, and no two implicit edges join the same ends. */
  predicate ImplicitSimple(edges: seq<ResourceEdge>) {
    (forall i :: 0 <= i < |edges| && edges[i].dependencyType == Implicit ==> edges[i].source != edges[i].target)
    && (forall i, j :: 0 <= i < j < |edges| && edges[i].dependencyType == Implicit && edges[j].dependencyType == Implicit
          ==> edges[i].source != edges[j].source || edges[i].target != edges[j].target)
  }

  /** Explicit edges carry the attribute `depends_on`, implicit ones none. */
  predicate Labelled(edges: seq<ResourceEdge>) {
    forall i :: 0 <= i < |edges| ==>
      edges[i].attribute == (if edges[i].dependencyType == Explicit then Some("depends_on") else None)
  }

  predicate WellFormed(edges: seq<ResourceEdge>, known: set<string>) {
    Closed(edges, known) && ImplicitSimple(edges) && Labelled(edges)
  }

  lemma AddImplicitKeeps(edges: seq<ResourceEdge>, known: set<string>, source: string, target: string)
    requires WellFormed(edges, known)
    requires source in known && target in known && source != target
    ensures WellFormed(AddImplicit(edges, source, target), known)
    ensures edges <= AddImplicit(edges, source, target)
  {
  }

  lemma {:induction false} AddFromResourcesKeeps(edges: seq<ResourceEdge>, rs: seq<Resource>, all: seq<Resource>,
                                                  fileName: string, target: string)
    requires WellFormed(edges, KnownIds(all)) && target in KnownIds(all)
    requires forall i :: 0 <= i < |rs| ==> rs[i] in all
    ensures WellFormed(AddFromResources(edges, rs, fileName, target), KnownIds(all))
    ensures edges <= AddFromResources(edges, rs, fileName, target)
  {
    if |rs| > 0 {
      var init := rs[..|rs| - 1];
      AddFromResourcesKeeps(edges, init, all, fileName, target);
      var r := rs[|rs| - 1];
      if r.file == fileName && ResourceId(r) != target {
        var k :| 0 <= k < |all| && all[k] == r;
        KnownIdsSpec(all, ResourceId(r));
        AddImplicitKeeps(AddFromResources(edges, init, fileName, target), KnownIds(all), ResourceId(r), target);
      }
    }
  }

  lemma {:induction false} AddReferencesKeeps(edges: seq<ResourceEdge>, rs: seq<Resource>, fileName: string,
                                               refs: seq<(string, string)>)
    requires WellFormed(edges, KnownIds(rs))
    ensures WellFormed(AddReferences(edges, rs, KnownIds(rs), fileName, refs), KnownIds(rs))
    ensures edges <= AddReferences(edges, rs, KnownIds(rs), fileName, refs)
  {
    if |refs| > 0 {
      AddReferencesKeeps(edges, rs, fileName, refs[..|refs| - 1]);
      var target := RefId(refs[|refs| - 1]);
      if target in KnownIds(rs) {
        AddFromResourcesKeeps(AddReferences(edges, rs, KnownIds(rs), fileName, refs[..|refs| - 1]), rs, rs, fileName, target);
      }
    }
  }

  /** The source every explicit edge of a file would take, if any, is a known address. */
  predicate SourceKnown(nodes: seq<ResourceNode>, known: set<string>, content: string) {
    FirstDeclared(nodes, content).Some? ==> FirstDeclared(nodes, content).value.id in known
  }

  lemma DeclaredKnown(directory: string, rs: seq<Resource>, content: string)
    ensures SourceKnown(NodesOf(directory, rs), KnownIds(rs), content)
  {
    var nodes := NodesOf(directory, rs);
    FirstDeclaredSpec(nodes, content);
    if FirstDeclared(nodes, content).Some? {
      var i :| 0 <= i < |nodes| && nodes[i] == FirstDeclared(nodes, content).value;
      NodeIdsKnown(directory, rs, i);
    }
  }

  /** An explicit edge runs from a node to a known address and is labelled `depends_on`. */
  lemma ExplicitEdgeShape(directory: string, rs: seq<Resource>, content: string, entry: string)
    requires ExplicitEdge(NodesOf(directory, rs), KnownIds(rs), content, entry).Some?
    ensures var x := ExplicitEdge(NodesOf(directory, rs), KnownIds(rs), content, entry).value;
      x.dependencyType == Explicit && x.attribute == Some("depends_on")
      && x.source in KnownIds(rs) && x.target in KnownIds(rs)
  {
    DeclaredKnown(directory, rs, content);
  }

  /** Explicit edges labelled `depends_on` between known addresses. */
  predicate AllExplicit(added: seq<ResourceEdge>, known: set<string>) {
    forall k :: 0 <= k < |added| ==>
      added[k].dependencyType == Explicit && added[k].attribute == Some("depends_on")
      && added[k].source in known && added[k].target in known
  }

  lemma AppendExplicitKeeps(edges: seq<ResourceEdge>, added: seq<ResourceEdge>, known: set<string>)
    requires WellFormed(edges, known) && AllExplicit(added, known)
    ensures WellFormed(edges + added, known)
  {
    var all := edges + added;
    forall i | 0 <= i < |all| ensures all[i].source in known && all[i].target in known {
      if i >= |edges| { assert all[i] == added[i - |edges|]; }
    }
  }

  lemma {:induction false} EntryEdgesExplicit(nodes: seq<ResourceNode>, known: set<string>, content: string,
                                              entries: seq<string>)
    requires SourceKnown(nodes, known, content)
    ensures AllExplicit(EntryEdges(nodes, known, content, entries), known)
  {
    if |entries| > 0 {
      var init := entries[..|entries| - 1];
      EntryEdgesExplicit(nodes, known, content, init);
      AllExplicitAppend(EntryEdges(nodes, known, content, init),
                        Listed(ExplicitEdge(nodes, known, content, entries[|entries| - 1])), known);
    }
  }

  lemma AllExplicitAppend(a: seq<ResourceEdge>, b: seq<ResourceEdge>, known: set<string>)
    requires AllExplicit(a, known) && AllExplicit(b, known)
    ensures AllExplicit(a + b, known)
  {
    forall k | 0 <= k < |a + b| ensures (a + b)[k] == if k < |a| then a[k] else b[k - |a|] {}
  }

  lemma ExplicitEdgesKeep(edges: seq<ResourceEdge>, directory: string, rs: seq<Resource>, f: Analyzer.FileScan)
    requires WellFormed(edges, KnownIds(rs))
    ensures WellFormed(edges + ExplicitEdges(NodesOf(directory, rs), KnownIds(rs), f), KnownIds(rs))
  {
    DeclaredKnown(directory, rs, f.content);
    EntryEdgesExplicit(NodesOf(directory, rs), KnownIds(rs), f.content, RawEntries(f.dependsOn));
    AppendExplicitKeeps(edges, ExplicitEdges(NodesOf(directory, rs), KnownIds(rs), f), KnownIds(rs));
  }

  lemma {:induction false} EdgesOfKeep(directory: string, rs: seq<Resource>, files: seq<Analyzer.FileScan>)
    ensures WellFormed(EdgesOf(NodesOf(directory, rs), rs, KnownIds(rs), files), KnownIds(rs))
  {
    if |files| > 0 {
      var nodes, known := NodesOf(directory, rs), KnownIds(rs);
      var before := EdgesOf(nodes, rs, known, files[..|files| - 1]);
      var f := files[|files| - 1];
      EdgesOfKeep(directory, rs, files[..|files| - 1]);
      ExplicitEdgesKeep(before, directory, rs, f);
      AddReferencesKeeps(before + ExplicitEdges(nodes, known, f), rs, f.name, f.references);
    }
  }

  /**
   * Every edge joins two resources of the configuration, explicit edges
   * are labelled `depends_on`, and implicit edges are neither self-loops
   * nor duplicated.
   */
  lemma GraphWellFormed(analysis: Analyzer.TerraformAnalysis, files: seq<Analyzer.FileScan>)
    ensures var g := GraphOf(analysis, files);
      forall i :: 0 <= i < |g.edges| ==>
        (exists a :: 0 <= a < |g.nodes| && g.nodes[a].id == g.edges[i].source)
        && (exists b :: 0 <= b < |g.nodes| && g.nodes[b].id == g.edges[i].target)
    ensures ImplicitSimple(GraphOf(analysis, files).edges) && Labelled(GraphOf(analysis, files).edges)
  {
    var rs := analysis.resources;
    var g := GraphOf(analysis, files);
    EdgesOfKeep(analysis.projectDirectory, rs, files);
    forall i | 0 <= i < |g.edges|
      ensures exists a :: 0 <= a < |g.nodes| && g.nodes[a].id == g.edges[i].source
      ensures exists b :: 0 <= b < |g.nodes| && g.nodes[b].id == g.edges[i].target
    {
      KnownIdsSpec(rs, g.edges[i].source);
      KnownIdsSpec(rs, g.edges[i].target);
    }
  }

  /** Every resource of the configuration is a node, and the single boundary lists every node, in order. */
  lemma GraphNodes(analysis: Analyzer.TerraformAnalysis, files: seq<Analyzer.FileScan>)
    ensures var g := GraphOf(analysis, files);
      |g.nodes| == |analysis.resources|
      && (forall i :: 0 <= i < |g.nodes| ==> g.nodes[i].id == ResourceId(analysis.resources[i]))
      && |g.moduleBoundaries| == 1 && g.moduleBoundaries[0].modulePath == analysis.projectDirectory
      && g.moduleBoundaries[0].resourceIds == seq(|g.nodes|, i requires 0 <= i < |g.nodes| => g.nodes[i].id)
  {
  }

  // ---------------------------------------------------------------------
  // Every reference is recorded
  // ---------------------------------------------------------------------

  lemma {:induction false} AddFromResourcesGrows(edges: seq<ResourceEdge>, rs: seq<Resource>, fileName: string, target: string)
    ensures edges <= AddFromResources(edges, rs, fileName, target)
  {
    if |rs| > 0 {
      AddFromResourcesGrows(edges, rs[..|rs| - 1], fileName, target);
    }
  }

  lemma {:induction false} AddReferencesGrows(edges: seq<ResourceEdge>, rs: seq<Resource>, known: set<string>, fileName: string,
                                               refs: seq<(string, string)>)
    ensures edges <= AddReferences(edges, rs, known, fileName, refs)
  {
    if |refs| > 0 {
      AddReferencesGrows(edges, rs, known, fileName, refs[..|refs| - 1]);
      var target := RefId(refs[|refs| - 1]);
      if target in known {
        AddFromResourcesGrows(AddReferences(edges, rs, known, fileName, refs[..|refs| - 1]), rs, fileName, target);
      }
    }
  }

  lemma HasImplicitGrows(edges: seq<ResourceEdge>, more: seq<ResourceEdge>, source: string, target: string)
    requires edges <= more && HasImplicit(edges, source, target)
    ensures HasImplicit(more, source, target)
  {
    var i :| 0 <= i < |edges| && edges[i].source == source && edges[i].target == target
             && edges[i].dependencyType == Implicit;
    assert more[i] == edges[i];
  }

  /** After the resources are scanned for one reference, each eligible resource has its edge. */
  lemma {:induction false} AddFromResourcesCovers(edges: seq<ResourceEdge>, rs: seq<Resource>, fileName: string,
                                                   target: string, k: nat)
    requires k < |rs| && rs[k].file == fileName && ResourceId(rs[k]) != target
    ensures HasImplicit(AddFromResources(edges, rs, fileName, target), ResourceId(rs[k]), target)
  {
    var init := rs[..|rs| - 1];
    if k == |rs| - 1 {
    } else {
      assert init[k] == rs[k];
      AddFromResourcesCovers(edges, init, fileName, target, k);
      var e := AddFromResources(edges, init, fileName, target);
      var r := rs[|rs| - 1];
      if r.file == fileName && ResourceId(r) != target {
        HasImplicitGrows(e, AddImplicit(e, ResourceId(r), target), ResourceId(rs[k]), target);
      }
    }
  }

  lemma {:induction false} AddReferencesCovers(edges: seq<ResourceEdge>, rs: seq<Resource>, known: set<string>,
                                                fileName: string, refs: seq<(string, string)>, j: nat, k: nat)
    requires j < |refs| && RefId(refs[j]) in known
    requires k < |rs| && rs[k].file == fileName && ResourceId(rs[k]) != RefId(refs[j])
    ensures HasImplicit(AddReferences(edges, rs, known, fileName, refs), ResourceId(rs[k]), RefId(refs[j]))
  {
    var init := refs[..|refs| - 1];
    var e := AddReferences(edges, rs, known, fileName, init);
    var last := RefId(refs[|refs| - 1]);
    if j == |refs| - 1 {
      AddFromResourcesCovers(e, rs, fileName, last, k);
    } else {
      assert init[j] == refs[j];
      AddReferencesCovers(edges, rs, known, fileName, init, j, k);
      if last in known {
        AddFromResourcesGrows(e, rs, fileName, last);
        HasImplicitGrows(e, AddFromResources(e, rs, fileName, last), ResourceId(rs[k]), RefId(refs[j]));
      }
    }
  }

  lemma {:induction false} EdgesOfGrow(nodes: seq<ResourceNode>, rs: seq<Resource>, known: set<string>,
                                        files: seq<Analyzer.FileScan>, n: nat)
    requires n <= |files|
    ensures EdgesOf(nodes, rs, known, files[..n]) <= EdgesOf(nodes, rs, known, files)
    decreases |files|
  {
    if n < |files| {
      var init := files[..|files| - 1];
      assert init[..n] == files[..n];
      EdgesOfGrow(nodes, rs, known, init, n);
      var before := EdgesOf(nodes, rs, known, init);
      var f := files[|files| - 1];
      AddReferencesGrows(before + ExplicitEdges(nodes, known, f), rs, known, f.name, f.references);
    } else {
      assert files[..n] == files;
    }
  }

  /**
   * Every reference in a file to a resource of the configuration yields an
   * implicit edge to it from every other resource declared in that file.
   */
  lemma ReferencesRecorded(analysis: Analyzer.TerraformAnalysis, files: seq<Analyzer.FileScan>, i: nat, j: nat, k: nat)
    requires i < |files| && j < |files[i].references| && k < |analysis.resources|
    requires (exists a :: 0 <= a < |analysis.resources| && ResourceId(analysis.resources[a]) == RefId(files[i].references[j]))
    requires analysis.resources[k].file == files[i].name
    requires ResourceId(analysis.resources[k]) != RefId(files[i].references[j])
    ensures HasImplicit(GraphOf(analysis, files).edges, ResourceId(analysis.resources[k]), RefId(files[i].references[j]))
  {
    var rs := analysis.resources;
    var nodes, known := NodesOf(analysis.projectDirectory, rs), KnownIds(rs);
    var f := files[i];
    KnownIdsSpec(rs, RefId(f.references[j]));
    var before := EdgesOf(nodes, rs, known, files[..i]);
    assert files[..i + 1][..i] == files[..i];
    assert files[..i + 1][i] == f;
    AddReferencesCovers(before + ExplicitEdges(nodes, known, f), rs, known, f.name, f.references, j, k);
    EdgesOfGrow(nodes, rs, known, files, i + 1);
    HasImplicitGrows(EdgesOf(nodes, rs, known, files[..i + 1]), EdgesOf(nodes, rs, known, files),
                     ResourceId(rs[k]), RefId(f.references[j]));
  }

  // ---------------------------------------------------------------------
  // build_dependency_graph
  // ---------------------------------------------------------------------

  /** `build_dependency_graph`: nodes and the address table first, then each file's edges, then the boundary. */
  method BuildDependencyGraph(analysis: Analyzer.TerraformAnalysis, files: seq<Analyzer.FileScan>)
    returns (g: ResourceDependencyGraph)
    ensures g == GraphOf(analysis, files)
  {
    var rs := analysis.resources;
    var nodes, known := BuildNodes(analysis.projectDirectory, rs);
    var edges: seq<ResourceEdge> := [];
    var i := 0;
    while i < |files|
      invariant 0 <= i <= |files|
      invariant edges == EdgesOf(nodes, rs, known, files[..i])
    {
      assert files[..i + 1][..i] == files[..i];
      edges := AddExplicitEdges(edges, nodes, known, files[i]);
      edges := AddReferenceEdges(edges, rs, known, files[i].name, files[i].references);
      i := i + 1;
    }
    assert files[..i] == files;
    g := ResourceDependencyGraph(nodes, edges, [ModuleBoundary(analysis.projectDirectory, IdsOf(nodes))]);
  }

  /** One node per resource, and the table of their addresses. */
  method BuildNodes(directory: string, rs: seq<Resource>) returns (nodes: seq<ResourceNode>, known: set<string>)
    ensures nodes == NodesOf(directory, rs) && known == KnownIds(rs)
  {
    nodes, known := [], {};
    var i := 0;
    while i < |rs|
      invariant 0 <= i <= |rs|
      invariant nodes == NodesOf(directory, rs[..i]) && known == KnownIds(rs[..i])
    {
      assert rs[..i + 1][..i] == rs[..i];
      var id := rs[i].resourceType + "." + rs[i].name;
      known := known + {id};
      nodes := nodes + [ResourceNode(id, rs[i].resourceType, rs[i].name, directory, rs[i].file, rs[i].provider)];
      i := i + 1;
    }
    assert rs[..i] == rs;
  }

  /** The first node whose `resource "T"` header occurs in the content. */
  method FindDeclaring(nodes: seq<ResourceNode>, content: string) returns (r: Option<ResourceNode>)
    ensures r == FirstDeclared(nodes, content)
  {
    r := None;
    var i := 0;
    while i < |nodes|
      invariant 0 <= i <= |nodes|
      invariant FirstDeclared(nodes[i..], content) == FirstDeclared(nodes, content)
    {
      if Contains(content, "resource \"" + nodes[i].resourceType + "\"") {
        r := Some(nodes[i]);
        return;
      }
      assert nodes[i..][1..] == nodes[i + 1..];
      i := i + 1;
    }
  }

  /** The explicit edges of one file, list by list and entry by entry. */
  method AddExplicitEdges(edges: seq<ResourceEdge>, nodes: seq<ResourceNode>, known: set<string>, f: Analyzer.FileScan)
    returns (out: seq<ResourceEdge>)
    ensures out == edges + ExplicitEdges(nodes, known, f)
  {
    out := edges;
    var lists := f.dependsOn;
    var i := 0;
    while i < |lists|
      invariant 0 <= i <= |lists|
      invariant out == edges + EntryEdges(nodes, known, f.content, RawEntries(lists[..i]))
    {
      var parts := Split(lists[i], ",");
      EntriesStep(nodes, known, f.content, lists, i);
      ConcatAssoc(edges, EntryEdges(nodes, known, f.content, RawEntries(lists[..i])),
                  EntryEdges(nodes, known, f.content, parts));
      out := AddEntryEdges(out, nodes, known, f.content, parts);
      i := i + 1;
    }
    assert lists[..i] == lists;
  }

  lemma EntriesStep(nodes: seq<ResourceNode>, known: set<string>, content: string, lists: seq<string>, i: nat)
    requires i < |lists|
    ensures EntryEdges(nodes, known, content, RawEntries(lists[..i + 1]))
            == EntryEdges(nodes, known, content, RawEntries(lists[..i])) + EntryEdges(nodes, known, content, Split(lists[i], ","))
  {
    assert lists[..i + 1][..i] == lists[..i];
    EntryEdgesAppend(nodes, known, content, RawEntries(lists[..i]), Split(lists[i], ","));
  }

  method AddEntryEdges(edges: seq<ResourceEdge>, nodes: seq<ResourceNode>, known: set<string>, content: string,
                       entries: seq<string>)
    returns (out: seq<ResourceEdge>)
    ensures out == edges + EntryEdges(nodes, known, content, entries)
  {
    out := edges;
    var j := 0;
    while j < |entries|
      invariant 0 <= j <= |entries|
      invariant out == edges + EntryEdges(nodes, known, content, entries[..j])
    {
      var e := EdgeForEntry(nodes, known, content, entries[j]);
      var added := Listed(e);
      EntryEdgesStep(edges, nodes, known, content, entries, j, added);
      out := out + added;
      j := j + 1;
    }
    assert entries[..j] == entries;
  }

  lemma EntryEdgesStep(edges: seq<ResourceEdge>, nodes: seq<ResourceNode>, known: set<string>, content: string,
                       entries: seq<string>, j: nat, added: seq<ResourceEdge>)
    requires j < |entries|
    requires added == Listed(ExplicitEdge(nodes, known, content, entries[j]))
    ensures edges + EntryEdges(nodes, known, content, entries[..j + 1])
            == (edges + EntryEdges(nodes, known, content, entries[..j])) + added
  {
    assert entries[..j + 1][..j] == entries[..j];
    ConcatAssoc(edges, EntryEdges(nodes, known, content, entries[..j]), added);
  }

  /** The explicit edge one `depends_on` entry yields, if any. */
  method EdgeForEntry(nodes: seq<ResourceNode>, known: set<string>, content: string, entry: string)
    returns (r: Option<ResourceEdge>)
    ensures r == ExplicitEdge(nodes, known, content, entry)
  {
    var target := CleanEntry(entry);
    if target !in known {
      return None;
    }
    var source := FindDeclaring(nodes, content);
    match source
    case None => r := None;
    case Some(n) => r := Some(ResourceEdge(n.id, target, Explicit, Some("depends_on")));
  }

  /** The implicit edges of one file, reference by reference. */
  method AddReferenceEdges(edges: seq<ResourceEdge>, rs: seq<Resource>, known: set<string>, fileName: string,
                           refs: seq<(string, string)>)
    returns (out: seq<ResourceEdge>)
    ensures out == AddReferences(edges, rs, known, fileName, refs)
  {
    out := edges;
    var i := 0;
    while i < |refs|
      invariant 0 <= i <= |refs|
      invariant out == AddReferences(edges, rs, known, fileName, refs[..i])
    {
      assert refs[..i + 1][..i] == refs[..i];
      var target := refs[i].0 + "." + refs[i].1;
      if target in known {
        out := AddResourceEdges(out, rs, fileName, target);
      }
      i := i + 1;
    }
    assert refs[..i] == refs;
  }

  method AddResourceEdges(edges: seq<ResourceEdge>, rs: seq<Resource>, fileName: string, target: string)
    returns (out: seq<ResourceEdge>)
    ensures out == AddFromResources(edges, rs, fileName, target)
  {
    out := edges;
    var i := 0;
    while i < |rs|
      invariant 0 <= i <= |rs|
      invariant out == AddFromResources(edges, rs[..i], fileName, target)
    {
      assert rs[..i + 1][..i] == rs[..i];
      if rs[i].file == fileName {
        var source := rs[i].resourceType + "." + rs[i].name;
        if source != target {
          var exists_ := ImplicitEdgeExists(out, source, target);
          if !exists_ {
            out := out + [ResourceEdge(source, target, Implicit, None)];
          }
        }
      }
      i := i + 1;
    }
    assert rs[..i] == rs;
  }

  /** `edges.iter().any(…)` for an implicit edge with the given ends. */
  method ImplicitEdgeExists(edges: seq<ResourceEdge>, source: string, target: string) returns (b: bool)
    ensures b == HasImplicit(edges, source, target)
  {
    var i := 0;
    while i < |edges|
      invariant 0 <= i <= |edges|
      invariant forall k :: 0 <= k < i ==>
        !(edges[k].source == source && edges[k].target == target && edges[k].dependencyType == Implicit)
    {
      if edges[i].source == source && edges[i].target == target && edges[i].dependencyType == Implicit {
        return true;
      }
      i := i + 1;
    }
    return false;
  }
}
