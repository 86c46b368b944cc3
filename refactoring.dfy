/**
 * Refactoring suggestions derived from a module health analysis: extract
 * each well-populated category into a submodule, wrap each public
 * registry module, describe the undocumented variables, flatten a deep
 * hierarchy — in that order.
 */
module Refactoring {
  import opened Wrappers
  import opened Strs
  import Analyzer
  import DependencyGraph

  type Resource = DependencyGraph.Resource

  datatype RefactoringType = ExtractSubmodule | WrapPublicModule | AddDescriptions | FlattenHierarchy

  datatype ProposedModuleStructure = ProposedModuleStructure(
    moduleName: string,
    resources: seq<string>,
    variables: seq<string>,
    outputs: seq<string>)

  /** What a suggestion's description says; `DescriptionText` renders it. */
  datatype Description =
    | ExtractGroup(group: string)
    | WrapModule(target: string)
    | DescribeCount(count: nat)
    | ReduceDepth(depth: nat)

  datatype RefactoringSuggestion = RefactoringSuggestion(
    suggestionType: RefactoringType,
    priority: Analyzer.IssueSeverity,
    description: Description,
    affectedResources: seq<string>,
    proposedStructure: Option<ProposedModuleStructure>,
    migrationSteps: MigrationPlan)

  function DescriptionText(d: Description): string {
    match d
    case ExtractGroup(g) => "Extract '" + g + "' resources into a dedicated module"
    case WrapModule(t) => "Create organization wrapper for public module: " + t
    case DescribeCount(n) => "Add descriptions to " + NatToString(n) + " undocumented variables"
    case ReduceDepth(d) => "Reduce module hierarchy from " + NatToString(d) + " levels to \U{2264}2"
  }

  /** The migration steps of a suggestion; `PlanSteps` renders them. */
  datatype MigrationPlan = ExtractPlan(group: string) | WrapPlan | DescribePlan | FlattenPlan

  function PlanSteps(p: MigrationPlan): seq<string> {
    match p
    case ExtractPlan(group) =>
      ["1. Create new module directory: modules/" + group,
       "2. Move related resources to new module",
       "3. Create variables.tf for required inputs",
       "4. Create outputs.tf for values needed by other resources",
       "5. Add 'moved' blocks to preserve state",
       "6. Run terraform plan to verify no changes"]
    case WrapPlan =>
      ["1. Create wrapper module directory",
       "2. Define minimal variable interface",
       "3. Call public module with organization defaults",
       "4. Forward only necessary outputs",
       "5. Update callers to use wrapper module"]
    case DescribePlan =>
      ["1. Review each variable's purpose",
       "2. Add description field with clear explanation",
       "3. Include example values where helpful",
       "4. Run terraform-docs to generate documentation"]
    case FlattenPlan =>
      ["1. Identify deeply nested modules",
       "2. Consider inlining small modules",
       "3. Use module composition instead of nesting",
       "4. Maintain visibility of resource details"]
  }

  // ---------------------------------------------------------------------
  // Extracting a category into a submodule
  // ---------------------------------------------------------------------

  /** The addresses of the resources whose type belongs to a group, in order. */
  function AffectedBy(rs: seq<Resource>, types: set<string>): seq<string> {
    if |rs| == 0 then []
    else
      AffectedBy(rs[..|rs| - 1], types)
      + (if rs[|rs| - 1].resourceType in types then [DependencyGraph.ResourceId(rs[|rs| - 1])] else [])
  }

  /** An address is affected exactly when a resource of one of the group's types has it. */
  lemma {:induction false} AffectedBySpec(rs: seq<Resource>, types: set<string>, id: string)
    ensures id in AffectedBy(rs, types)
            <==> exists i :: 0 <= i < |rs| && rs[i].resourceType in types && DependencyGraph.ResourceId(rs[i]) == id
  {
    if |rs| > 0 {
      var init := rs[..|rs| - 1];
      AffectedBySpec(init, types, id);
      if exists i :: 0 <= i < |init| && init[i].resourceType in types && DependencyGraph.ResourceId(init[i]) == id {
        var i :| 0 <= i < |init| && init[i].resourceType in types && DependencyGraph.ResourceId(init[i]) == id;
        assert rs[i] == init[i];
      }
      if exists i :: 0 <= i < |rs| && rs[i].resourceType in types && DependencyGraph.ResourceId(rs[i]) == id {
        var i :| 0 <= i < |rs| && rs[i].resourceType in types && DependencyGraph.ResourceId(rs[i]) == id;
        if i < |init| { assert init[i] == rs[i]; }
      }
    }
  }

  /** The module directory for a group: hyphens become underscores. */
  function ModuleDirFor(group: string): (dir: string)
    ensures StartsWith(dir, "modules/") && '-' !in dir[8..]
    ensures |dir| == 8 + |group|
  {
    var dir := "modules/" + ReplaceChar(group, '-', '_');
    assert dir[8..] == ReplaceChar(group, '-', '_');
    dir
  }

  /** A group with at least two resources and at least one matching resource yields an extraction. */
  function ExtractFor(rs: seq<Resource>, g: Analyzer.ResourceTypeGroup): Option<RefactoringSuggestion> {
    if g.resourceCount >= 2 then
      var affected := AffectedBy(rs, g.resourceTypes);
      if |affected| > 0 then
        Some(RefactoringSuggestion(
          ExtractSubmodule, Analyzer.Warning, ExtractGroup(g.name), affected,
          Some(ProposedModuleStructure(ModuleDirFor(g.name), affected, [], [])),
          ExtractPlan(g.name)))
      else None
    else None
  }

  function ExtractAll(rs: seq<Resource>, groups: seq<Analyzer.ResourceTypeGroup>): seq<RefactoringSuggestion> {
    if |groups| == 0 then []
    else
      ExtractAll(rs, groups[..|groups| - 1])
      + (match ExtractFor(rs, groups[|groups| - 1]) case Some(s) => [s] case None => [])
  }

  /** Extractions are only considered when the resources fall into more than two categories. */
  function Extractions(rs: seq<Resource>, groups: seq<Analyzer.ResourceTypeGroup>): seq<RefactoringSuggestion> {
    if |groups| > 2 then ExtractAll(rs, groups) else []
  }

  // ---------------------------------------------------------------------
  // The other three kinds
  // ---------------------------------------------------------------------

  /** A public-registry dependency yields a wrapper named after the last path segment of its address. */
  function WrapFor(d: Analyzer.ModuleDependency): Option<RefactoringSuggestion> {
    if d.dependencyType == Analyzer.PublicRegistry then
      Some(RefactoringSuggestion(
        WrapPublicModule, Analyzer.Warning, WrapModule(d.targetModule), [d.targetModule],
        Some(ProposedModuleStructure("modules/" + LastPart(d.targetModule, "/"), [],
                                     ["# Expose only necessary variables"], ["# Forward only needed outputs"])),
        WrapPlan))
    else None
  }

  /** The description suggestion lists the variables that lack a description and counts them. */
  function Descriptions(vs: seq<Analyzer.Variable>, m: Analyzer.ModuleMetrics): seq<RefactoringSuggestion> {
    if m.variablesWithoutDescription > 0 then
      var names := Analyzer.UndocumentedNames(vs);
      [RefactoringSuggestion(AddDescriptions, Analyzer.Info, DescribeCount(|names|), names, None, DescribePlan)]
    else []
  }

  function Flattening(m: Analyzer.ModuleMetrics): seq<RefactoringSuggestion> {
    if m.hierarchyDepth > Analyzer.MaxHierarchyDepth then
      [RefactoringSuggestion(FlattenHierarchy, Analyzer.Warning, ReduceDepth(m.hierarchyDepth), [], None, FlattenPlan)]
    else []
  }

  /** `suggest_refactoring`: extractions, wrappers, descriptions, flattening. */
  function SuggestionsOf(analysis: Analyzer.TerraformAnalysis, health: Analyzer.ModuleHealthAnalysis)
    : seq<RefactoringSuggestion>
  {
    Extractions(analysis.resources, health.cohesionAnalysis.resourceTypeGroups)
    + FilterMap(health.couplingAnalysis.dependencies, WrapFor)
    + Descriptions(analysis.variables, health.metrics)
    + Flattening(health.metrics)
  }

  method SuggestRefactoring(analysis: Analyzer.TerraformAnalysis, health: Analyzer.ModuleHealthAnalysis)
    returns (suggestions: seq<RefactoringSuggestion>)
    ensures suggestions == SuggestionsOf(analysis, health)
  {
    suggestions := [];
    var groups := health.cohesionAnalysis.resourceTypeGroups;
    if |groups| > 2 {
      suggestions := SuggestExtractions(analysis.resources, groups);
    }
    suggestions := SuggestWrappers(suggestions, health.couplingAnalysis.dependencies);
    if health.metrics.variablesWithoutDescription > 0 {
      var names := Analyzer.UndocumentedNames(analysis.variables);
      suggestions := suggestions
        + [RefactoringSuggestion(AddDescriptions, Analyzer.Info, DescribeCount(|names|), names, None, DescribePlan)];
    }
    if health.metrics.hierarchyDepth > Analyzer.MaxHierarchyDepth {
      suggestions := suggestions
        + [RefactoringSuggestion(FlattenHierarchy, Analyzer.Warning, ReduceDepth(health.metrics.hierarchyDepth), [], None,
                                 FlattenPlan)];
    }
  }

  method SuggestExtractions(rs: seq<Resource>, groups: seq<Analyzer.ResourceTypeGroup>)
    returns (suggestions: seq<RefactoringSuggestion>)
    ensures suggestions == ExtractAll(rs, groups)
  {
    suggestions := [];
    var i := 0;
    while i < |groups|
      invariant 0 <= i <= |groups|
      invariant suggestions == ExtractAll(rs, groups[..i])
    {
      assert groups[..i + 1][..i] == groups[..i];
      var g := groups[i];
      if g.resourceCount >= 2 {
        var affected := AffectedBy(rs, g.resourceTypes);
        if |affected| > 0 {
          suggestions := suggestions + [RefactoringSuggestion(
            ExtractSubmodule, Analyzer.Warning, ExtractGroup(g.name), affected,
            Some(ProposedModuleStructure("modules/" + ReplaceChar(g.name, '-', '_'), affected, [], [])),
            ExtractPlan(g.name))];
        }
      }
      i := i + 1;
    }
    assert groups[..i] == groups;
  }

  method SuggestWrappers(before: seq<RefactoringSuggestion>, deps: seq<Analyzer.ModuleDependency>)
    returns (suggestions: seq<RefactoringSuggestion>)
    ensures suggestions == before + FilterMap(deps, WrapFor)
  {
    suggestions := before;
    var i := 0;
    while i < |deps|
      invariant 0 <= i <= |deps|
      invariant suggestions == before + FilterMap(deps[..i], WrapFor)
    {
      assert deps[..i + 1][..i] == deps[..i];
      if deps[i].dependencyType == Analyzer.PublicRegistry {
        suggestions := suggestions + [WrapFor(deps[i]).value];
      }
      i := i + 1;
    }
    assert deps[..i] == deps;
  }

  // ---------------------------------------------------------------------
  // Properties
  // ---------------------------------------------------------------------

  /** The rank of each kind in the output order. */
  function Rank(t: RefactoringType): nat {
    match t
    case ExtractSubmodule => 0
    case WrapPublicModule => 1
    case AddDescriptions => 2
    case FlattenHierarchy => 3
  }

  predicate AllOfType(ss: seq<RefactoringSuggestion>, t: RefactoringType) {
    forall i :: 0 <= i < |ss| ==> ss[i].suggestionType == t
  }

  /** Every extraction names a group with at least two resources, and lists exactly that group's matching resources. */
  lemma {:induction false} ExtractAllSound(rs: seq<Resource>, groups: seq<Analyzer.ResourceTypeGroup>)
    ensures AllOfType(ExtractAll(rs, groups), ExtractSubmodule)
    ensures forall k :: 0 <= k < |ExtractAll(rs, groups)| ==>
      var s := ExtractAll(rs, groups)[k];
      exists g :: g in groups && g.resourceCount >= 2 && s.description == ExtractGroup(g.name)
        && s.affectedResources == AffectedBy(rs, g.resourceTypes) && |s.affectedResources| > 0
        && s.proposedStructure == Some(ProposedModuleStructure(ModuleDirFor(g.name), s.affectedResources, [], []))
        && s.priority == Analyzer.Warning
  {
    if |groups| > 0 {
      var init := groups[..|groups| - 1];
      ExtractAllSound(rs, init);
      assert forall g :: g in init ==> g in groups;
    }
  }

  /** A group with at least two resources, one of which has a type of the group, is extracted. */
  lemma {:induction false} ExtractAllComplete(rs: seq<Resource>, groups: seq<Analyzer.ResourceTypeGroup>, j: nat, r: nat)
    requires j < |groups| && groups[j].resourceCount >= 2
    requires r < |rs| && rs[r].resourceType in groups[j].resourceTypes
    ensures exists k :: 0 <= k < |ExtractAll(rs, groups)| && ExtractAll(rs, groups)[k].description == ExtractGroup(groups[j].name)
  {
    var init := groups[..|groups| - 1];
    if j == |groups| - 1 {
      AffectedBySpec(rs, groups[j].resourceTypes, DependencyGraph.ResourceId(rs[r]));
      var all := ExtractAll(rs, groups);
      assert all[|all| - 1].description == ExtractGroup(groups[j].name);
    } else {
      assert init[j] == groups[j];
      ExtractAllComplete(rs, init, j, r);
      var k :| 0 <= k < |ExtractAll(rs, init)| && ExtractAll(rs, init)[k].description == ExtractGroup(groups[j].name);
      assert ExtractAll(rs, groups)[k] == ExtractAll(rs, init)[k];
    }
  }

  /** One wrapper per public-registry dependency, in order, each for that dependency's address. */
  lemma {:induction false} WrappersPerDependency(deps: seq<Analyzer.ModuleDependency>)
    ensures var w := FilterMap(deps, WrapFor);
      var targets := FilterMap(deps, Analyzer.PublicTarget);
      |w| == |targets| && AllOfType(w, WrapPublicModule)
      && forall k :: 0 <= k < |w| ==>
        w[k].affectedResources == [targets[k]] && w[k].description == WrapModule(targets[k])
        && w[k].proposedStructure.Some? && w[k].proposedStructure.value.moduleName == "modules/" + LastPart(targets[k], "/")
  {
    if |deps| > 0 {
      WrappersPerDependency(deps[..|deps| - 1]);
    }
  }

  /**
   * Extractions come first, then wrappers, then the description
   * suggestion, then the flattening one.
   */
  lemma SuggestionOrder(analysis: Analyzer.TerraformAnalysis, health: Analyzer.ModuleHealthAnalysis)
    ensures var ss := SuggestionsOf(analysis, health);
      forall i, j :: 0 <= i < j < |ss| ==> Rank(ss[i].suggestionType) <= Rank(ss[j].suggestionType)
  {
    var e := Extractions(analysis.resources, health.cohesionAnalysis.resourceTypeGroups);
    var w := FilterMap(health.couplingAnalysis.dependencies, WrapFor);
    var d := Descriptions(analysis.variables, health.metrics);
    var f := Flattening(health.metrics);
    ExtractAllSound(analysis.resources, health.cohesionAnalysis.resourceTypeGroups);
    WrappersPerDependency(health.couplingAnalysis.dependencies);
    RanksOf(e, w, d, f);
  }

  /** The rank of every suggestion in the four segments, by position. */
  lemma RanksOf(e: seq<RefactoringSuggestion>, w: seq<RefactoringSuggestion>, d: seq<RefactoringSuggestion>,
                f: seq<RefactoringSuggestion>)
    requires AllOfType(e, ExtractSubmodule) && AllOfType(w, WrapPublicModule)
    requires AllOfType(d, AddDescriptions) && AllOfType(f, FlattenHierarchy)
    ensures var ss := e + w + d + f;
      forall i, j :: 0 <= i < j < |ss| ==> Rank(ss[i].suggestionType) <= Rank(ss[j].suggestionType)
  {
    var ss := e + w + d + f;
    forall i | 0 <= i < |ss|
      ensures Rank(ss[i].suggestionType) == (if i < |e| then 0 else if i < |e| + |w| then 1 else if i < |e| + |w| + |d| then 2 else 3)
    {
      if i < |e| { assert ss[i] == e[i]; }
      else if i < |e| + |w| { assert ss[i] == w[i - |e|]; }
      else if i < |e| + |w| + |d| { assert ss[i] == d[i - |e| - |w|]; }
      else { assert ss[i] == f[i - |e| - |w| - |d|]; }
    }
  }

  /** Which suggestions hold a given kind, by position. */
  predicate HasType(ss: seq<RefactoringSuggestion>, t: RefactoringType) {
    exists i :: 0 <= i < |ss| && ss[i].suggestionType == t
  }

  lemma TypesOfSegments(e: seq<RefactoringSuggestion>, w: seq<RefactoringSuggestion>, d: seq<RefactoringSuggestion>,
                        f: seq<RefactoringSuggestion>)
    requires AllOfType(e, ExtractSubmodule) && AllOfType(w, WrapPublicModule)
    requires AllOfType(d, AddDescriptions) && AllOfType(f, FlattenHierarchy)
    ensures HasType(e + w + d + f, AddDescriptions) <==> |d| > 0
    ensures HasType(e + w + d + f, FlattenHierarchy) <==> |f| > 0
  {
    var ss := e + w + d + f;
    if |d| > 0 { assert ss[|e| + |w|] == d[0]; }
    if |f| > 0 { assert ss[|e| + |w| + |d|] == f[0]; }
    forall i | 0 <= i < |ss| && i < |e| + |w| ensures ss[i].suggestionType in {ExtractSubmodule, WrapPublicModule} {
      if i < |e| { assert ss[i] == e[i]; } else { assert ss[i] == w[i - |e|]; }
    }
    forall i | |e| + |w| <= i < |ss| && i < |e| + |w| + |d| ensures ss[i].suggestionType == AddDescriptions {
      assert ss[i] == d[i - |e| - |w|];
    }
  }

  /**
   * A description suggestion is made exactly when some variable lacks a
   * description, a flattening one exactly when the hierarchy is deeper
   * than two levels.
   */
  lemma DescribeAndFlattenIff(analysis: Analyzer.TerraformAnalysis, health: Analyzer.ModuleHealthAnalysis)
    ensures HasType(SuggestionsOf(analysis, health), AddDescriptions) <==> health.metrics.variablesWithoutDescription > 0
    ensures HasType(SuggestionsOf(analysis, health), FlattenHierarchy) <==> health.metrics.hierarchyDepth > 2
  {
    ExtractAllSound(analysis.resources, health.cohesionAnalysis.resourceTypeGroups);
    WrappersPerDependency(health.couplingAnalysis.dependencies);
    TypesOfSegments(Extractions(analysis.resources, health.cohesionAnalysis.resourceTypeGroups),
                    FilterMap(health.couplingAnalysis.dependencies, WrapFor),
                    Descriptions(analysis.variables, health.metrics), Flattening(health.metrics));
  }

  /** The description suggestion names the undocumented variables and counts exactly those. */
  lemma DescriptionsListUndocumented(vs: seq<Analyzer.Variable>, m: Analyzer.ModuleMetrics)
    requires m.variablesWithoutDescription > 0
    ensures var s := Descriptions(vs, m)[0];
      s.priority == Analyzer.Info && s.description == DescribeCount(|s.affectedResources|)
      && (forall name :: name in s.affectedResources
            <==> exists i :: 0 <= i < |vs| && Analyzer.Undocumented(vs[i]) && vs[i].name == name)
  {
    forall name ensures name in Analyzer.UndocumentedNames(vs)
                        <==> exists i :: 0 <= i < |vs| && Analyzer.Undocumented(vs[i]) && vs[i].name == name {
      FilterMapMembers(vs, Analyzer.NameIfUndocumented, name);
    }
  }
}
