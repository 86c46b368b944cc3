/**
 * Plan analysis (src/terraform/plan_analyzer.rs): each resource change of
 * a parsed `terraform plan` is reduced to one action string and counted
 * in the change summary; the risk assessment scores the summary and every
 * change against lists of high-risk, security and network resource
 * types; and the dependency analysis links changes through the resource
 * addresses that appear in their planned values.  Reading the plan JSON
 * (serde) is not part of this model: the plan arrives parsed.
 */
module PlanAnalyzer {
  import opened Wrappers
  import opened Json
  import opened Strs
  import opened Sorting
  import Batch

  datatype RiskLevel = Low | Medium | High | Critical

  /** `PlanChange`: the actions and the planned value (`before` and `after_unknown` are only carried). */
  datatype PlanChange = PlanChange(actions: seq<string>, after: Option<Json>)

  /** `PlanResourceChange`, one entry of the plan's `resource_changes`. */
  datatype PlanResourceChange = PlanResourceChange(
    address: string,
    resourceType: string,
    providerName: Option<string>,
    change: Option<PlanChange>)

  /** The parsed plan. */
  datatype TerraformPlan = TerraformPlan(
    formatVersion: Option<string>,
    terraformVersion: Option<string>,
    resourceChanges: Option<seq<PlanResourceChange>>)

  datatype ResourceChange = ResourceChange(
    address: string,
    resourceType: string,
    provider: string,
    action: string,
    after: Option<Json>)

  datatype ChangeSummary = ChangeSummary(add: nat, change: nat, destroy: nat, replace: nat, noOp: nat)

  datatype RiskAssessment = RiskAssessment(
    level: RiskLevel,
    score: int,
    warnings: seq<string>,
    recommendations: seq<string>)

  datatype DependencyImpact = DependencyImpact(resource: string, affectedBy: seq<string>, affects: seq<string>)

  datatype PlanAnalysis = PlanAnalysis(
    summary: ChangeSummary,
    resourceChanges: seq<ResourceChange>,
    riskAssessment: RiskAssessment,
    dependencyImpacts: seq<DependencyImpact>,
    terraformVersion: Option<string>,
    formatVersion: Option<string>)

  // ---------------------------------------------------------------------
  // Actions and the change summary
  // ---------------------------------------------------------------------

  /**
   * `actions_to_string`: no action is "no-op", one action is itself, a
   * pair holding both "create" and "delete" is "replace", and anything
   * else is the actions joined with '_'.
   */
  function ActionsToString(actions: seq<string>): string {
    if |actions| == 0 then "no-op"
    else if |actions| == 1 then actions[0]
    else if |actions| == 2 && "create" in actions && "delete" in actions then "replace"
    else Join(actions, "_")
  }

  /**
   * A pair is "replace" whichever order "create" and "delete" come in,
   * and any other pair of actions is joined with '_'.
   */
  lemma ActionsPair(a: string, b: string)
    ensures ActionsToString([a, b]) == "replace" <==>
      (a == "create" && b == "delete") || (a == "delete" && b == "create") || a + "_" + b == "replace"
  {
    var pair := [a, b];
    assert forall x :: x in pair <==> x == a || x == b;
    assert Join(pair, "_") == a + "_" + b by {
      assert Join(pair[..1], "_") == a;
    }
  }

  /** The values the source's own test expects. */
  lemma ActionsToStringSamples()
    ensures ActionsToString([]) == "no-op"
    ensures ActionsToString(["create"]) == "create"
    ensures ActionsToString(["create", "delete"]) == "replace"
    ensures ActionsToString(["delete", "create"]) == "replace"
  {
    ActionsPair("create", "delete");
    ActionsPair("delete", "create");
  }

  predicate IsReplaceAction(action: string) {
    action == "replace" || action == "create_delete" || action == "delete_create"
  }

  /** Which summary counter an action increments, if any. */
  datatype Counter = AddCounter | ChangeCounter | DestroyCounter | ReplaceCounter | NoOpCounter | NoCounter

  function CounterOf(action: string): Counter {
    if action == "create" then AddCounter
    else if action == "update" then ChangeCounter
    else if action == "delete" then DestroyCounter
    else if IsReplaceAction(action) then ReplaceCounter
    else if action == "no-op" || action == "read" then NoOpCounter
    else NoCounter
  }

  /** How many entries of `cs` are `c`. */
  function Count(cs: seq<Counter>, c: Counter): (r: nat)
    ensures r <= |cs|
  {
    if |cs| == 0 then 0
    else Count(cs[..|cs| - 1], c) + (if cs[|cs| - 1] == c then 1 else 0)
  }

  /** The summary of a list of counters: each field counts its own counter. */
  function Tally(cs: seq<Counter>): ChangeSummary {
    ChangeSummary(Count(cs, AddCounter), Count(cs, ChangeCounter), Count(cs, DestroyCounter),
                  Count(cs, ReplaceCounter), Count(cs, NoOpCounter))
  }

  /** The summary after one more change with counter `c`. */
  function Bump(s: ChangeSummary, c: Counter): ChangeSummary {
    match c
    case AddCounter => s.(add := s.add + 1)
    case ChangeCounter => s.(change := s.change + 1)
    case DestroyCounter => s.(destroy := s.destroy + 1)
    case ReplaceCounter => s.(replace := s.replace + 1)
    case NoOpCounter => s.(noOp := s.noOp + 1)
    case NoCounter => s
  }

  lemma TallySnoc(cs: seq<Counter>, c: Counter)
    ensures Tally(cs + [c]) == Bump(Tally(cs), c)
  {
    assert (cs + [c])[..|cs|] == cs;
  }

  function Total(s: ChangeSummary): nat {
    s.add + s.change + s.destroy + s.replace + s.noOp
  }

  /**
   * Each change increments at most one counter: the counters add up to
   * the number of changes less those whose action has no counter.
   */
  lemma {:induction false} TallyTotal(cs: seq<Counter>)
    ensures Total(Tally(cs)) + Count(cs, NoCounter) == |cs|
  {
    if |cs| > 0 {
      TallyTotal(cs[..|cs| - 1]);
    }
  }

  /** The `ResourceChange` recorded for a plan entry. */
  function ToResourceChange(pc: PlanResourceChange): ResourceChange {
    var action := if pc.change.Some? then ActionsToString(pc.change.value.actions) else "unknown";
    var provider := if pc.providerName.Some? then pc.providerName.value else "unknown";
    var after := if pc.change.Some? then pc.change.value.after else None;
    ResourceChange(pc.address, pc.resourceType, provider, action, after)
  }

  /** The counter of every change, in order. */
  function CountersOf(changes: seq<ResourceChange>): (r: seq<Counter>)
    ensures |r| == |changes|
    ensures forall i :: 0 <= i < |changes| ==> r[i] == CounterOf(changes[i].action)
  {
    seq(|changes|, i requires 0 <= i < |changes| => CounterOf(changes[i].action))
  }

  function SummaryOf(changes: seq<ResourceChange>): ChangeSummary {
    Tally(CountersOf(changes))
  }

  lemma SummarySnoc(changes: seq<ResourceChange>, c: ResourceChange)
    ensures SummaryOf(changes + [c]) == Bump(SummaryOf(changes), CounterOf(c.action))
  {
    assert CountersOf(changes + [c]) == CountersOf(changes) + [CounterOf(c.action)];
    TallySnoc(CountersOf(changes), CounterOf(c.action));
  }

  /** A change whose action is "unknown" (no `change` in the plan) is counted nowhere. */
  lemma UnknownNotCounted(changes: seq<ResourceChange>, c: ResourceChange)
    requires c.action == "unknown"
    ensures SummaryOf(changes + [c]) == SummaryOf(changes)
  {
    SummarySnoc(changes, c);
  }

  /** The summary never counts more changes than there are. */
  lemma SummaryBound(changes: seq<ResourceChange>)
    ensures Total(SummaryOf(changes)) <= |changes|
  {
    TallyTotal(CountersOf(changes));
  }

  /**
   * The loop of `analyze_plan` over the plan's changes: one
   * `ResourceChange` per entry, in order, with the summary counting their
   * actions.
   */
  method SummariseChanges(changes: seq<PlanResourceChange>)
    returns (summary: ChangeSummary, resourceChanges: seq<ResourceChange>)
    ensures resourceChanges == Batch.Fetched(changes, ToResourceChange)
    ensures summary == SummaryOf(resourceChanges)
  {
    summary := ChangeSummary(0, 0, 0, 0, 0);
    resourceChanges := [];
    var i := 0;
    while i < |changes|
      invariant 0 <= i <= |changes|
      invariant resourceChanges == Batch.Fetched(changes[..i], ToResourceChange)
      invariant summary == SummaryOf(resourceChanges)
    {
      var rc := ToResourceChange(changes[i]);
      var counter := CounterOf(rc.action);
      ghost var before := summary;
      match counter {
        case AddCounter => summary := summary.(add := summary.add + 1);
        case ChangeCounter => summary := summary.(change := summary.change + 1);
        case DestroyCounter => summary := summary.(destroy := summary.destroy + 1);
        case ReplaceCounter => summary := summary.(replace := summary.replace + 1);
        case NoOpCounter => summary := summary.(noOp := summary.noOp + 1);
        case NoCounter =>
      }
      assert summary == Bump(before, counter);
      SummarySnoc(resourceChanges, rc);
      Batch.FetchedSnoc(changes, i, ToResourceChange);
      resourceChanges := resourceChanges + [rc];
      i := i + 1;
    }
    assert changes[..i] == changes;
  }

  // ---------------------------------------------------------------------
  // Risk assessment
  // ---------------------------------------------------------------------

  const HighRiskResources: seq<string> := [
    "aws_db_instance", "aws_rds_cluster", "aws_elasticache_cluster", "aws_elasticsearch_domain",
    "aws_opensearch_domain", "google_sql_database_instance", "azurerm_sql_database",
    "azurerm_postgresql_server", "aws_s3_bucket", "google_storage_bucket", "azurerm_storage_account",
    "aws_iam_role", "aws_iam_policy", "google_project_iam_binding", "azurerm_role_assignment",
    "aws_security_group", "google_compute_firewall", "azurerm_network_security_group", "aws_vpc",
    "google_compute_network", "azurerm_virtual_network", "aws_kms_key", "google_kms_crypto_key",
    "azurerm_key_vault"]

  const CriticalTag := "CRITICAL"

  function DestroyWarning(address: string): string {
    CriticalTag + ": High-risk resource '" + address + "' will be DESTROYED"
  }

  function ReplaceWarning(address: string): string {
    "WARNING: High-risk resource '" + address + "' will be REPLACED (data loss possible)"
  }

  function ModifyWarning(address: string): string {
    "CAUTION: High-risk resource '" + address + "' will be modified"
  }

  function SecurityWarning(address: string): string {
    "Security-related resource '" + address + "' will be modified"
  }

  function NetworkWarning(address: string): string {
    "Network infrastructure '" + address + "' change may cause connectivity issues"
  }

  /** Points and warnings that one check gives one change. */
  datatype Assessment = Assessment(points: nat, warnings: seq<string>)

  const NoFinding := Assessment(0, [])

  /** The high-risk type check: delete 50, replace 40, update 15, each with its warning. */
  function HighRiskCheck(c: ResourceChange): Assessment {
    if c.resourceType !in HighRiskResources then NoFinding
    else if c.action == "delete" then Assessment(50, [DestroyWarning(c.address)])
    else if IsReplaceAction(c.action) then Assessment(40, [ReplaceWarning(c.address)])
    else if c.action == "update" then Assessment(15, [ModifyWarning(c.address)])
    else NoFinding
  }

  predicate IsSecurityResource(resourceType: string) {
    Contains(resourceType, "iam") || Contains(resourceType, "security") || Contains(resourceType, "firewall")
  }

  predicate IsNetworkResource(resourceType: string) {
    Contains(resourceType, "vpc") || Contains(resourceType, "network") || Contains(resourceType, "subnet")
  }

  /** A security-related type changed by anything but "no-op" or "read". */
  predicate SecurityApplies(c: ResourceChange) {
    IsSecurityResource(c.resourceType) && c.action != "no-op" && c.action != "read"
  }

  /** A network type deleted, or changed by an action containing "replace". */
  predicate NetworkApplies(c: ResourceChange) {
    IsNetworkResource(c.resourceType) && (c.action == "delete" || Contains(c.action, "replace"))
  }

  /** 10 points for a security-related change. */
  function SecurityCheck(c: ResourceChange): Assessment {
    if SecurityApplies(c) then Assessment(10, [SecurityWarning(c.address)])
    else NoFinding
  }

  /** 25 points for a network change that may cut connectivity. */
  function NetworkCheck(c: ResourceChange): Assessment {
    if NetworkApplies(c) then Assessment(25, [NetworkWarning(c.address)])
    else NoFinding
  }

  /** All three checks on one change, in the order the source runs them. */
  function ChangeRisk(c: ResourceChange): Assessment {
    var h := HighRiskCheck(c);
    var s := SecurityCheck(c);
    var n := NetworkCheck(c);
    Assessment(h.points + s.points + n.points, h.warnings + s.warnings + n.warnings)
  }

  /** A check summed over a list: points added up, warnings concatenated in order. */
  function SumChecks<T>(xs: seq<T>, check: T -> Assessment): Assessment {
    if |xs| == 0 then NoFinding
    else
      var init := SumChecks(xs[..|xs| - 1], check);
      var last := check(xs[|xs| - 1]);
      Assessment(init.points + last.points, init.warnings + last.warnings)
  }

  /** The per-change checks summed over a list of changes. */
  function ChangesRisk(changes: seq<ResourceChange>): Assessment {
    SumChecks(changes, ChangeRisk)
  }

  lemma SumSnoc<T>(xs: seq<T>, i: nat, check: T -> Assessment)
    requires i < |xs|
    ensures SumChecks(xs[..i + 1], check).points == SumChecks(xs[..i], check).points + check(xs[i]).points
    ensures SumChecks(xs[..i + 1], check).warnings == SumChecks(xs[..i], check).warnings + check(xs[i]).warnings
  {
    assert xs[..i + 1][..i] == xs[..i];
  }

  /** Every item contributes its points and its warnings to the sum. */
  lemma {:induction false} SumIncludes<T>(xs: seq<T>, i: nat, check: T -> Assessment)
    requires i < |xs|
    ensures SumChecks(xs, check).points >= check(xs[i]).points
    ensures forall w :: w in check(xs[i]).warnings ==> w in SumChecks(xs, check).warnings
  {
    if i < |xs| - 1 {
      var init := xs[..|xs| - 1];
      SumIncludes(init, i, check);
      assert init[i] == xs[i];
    }
  }

  /** Summing over two lists is summing over each and adding up. */
  lemma {:induction false} SumAppend<T>(a: seq<T>, b: seq<T>, check: T -> Assessment)
    ensures SumChecks(a + b, check).points == SumChecks(a, check).points + SumChecks(b, check).points
    ensures SumChecks(a + b, check).warnings == SumChecks(a, check).warnings + SumChecks(b, check).warnings
    decreases |b|
  {
    if |b| == 0 {
      assert a + b == a;
    } else {
      var init := b[..|b| - 1];
      SumAppend(a, init, check);
      assert (a + b)[..|a + b| - 1] == a + init;
      assert (a + b)[|a + b| - 1] == b[|b| - 1];
    }
  }

  /** The base score from the summary. */
  function BaseScore(s: ChangeSummary): nat {
    30 * s.destroy + 20 * s.replace + 5 * s.change + 2 * s.add
  }

  /** `match score`: the four bands; anything outside 0..=60, negative scores included, is Critical. */
  function LevelOf(score: int): (r: RiskLevel)
    ensures r == Low <==> 0 <= score <= 10
    ensures r == Medium <==> 11 <= score <= 30
    ensures r == High <==> 31 <= score <= 60
    ensures r == Critical <==> score < 0 || score > 60
  {
    if 0 <= score <= 10 then Low
    else if 11 <= score <= 30 then Medium
    else if 31 <= score <= 60 then High
    else Critical
  }

  const ReviewDestruction := "Review all resources marked for destruction carefully"
  const EnsureBackups := "Ensure backups exist for any stateful resources"
  const ReplacementDowntime := "Resources being replaced may have brief downtime or data loss"
  const MaintenanceWindow := "Consider applying changes during a maintenance window"
  const RollbackPlan := "Have a rollback plan ready"

  /** Two for destruction, one for replacement, two for a score above 50, in that order. */
  function Recommendations(s: ChangeSummary, score: int): seq<string> {
    (if s.destroy > 0 then [ReviewDestruction, EnsureBackups] else [])
    + (if s.replace > 0 then [ReplacementDowntime] else [])
    + (if score > 50 then [MaintenanceWindow, RollbackPlan] else [])
  }

  /**
   * Two recommendations for any destruction, one for any replacement and
   * two for a score above 50, each only when its condition holds.
   */
  lemma RecommendationsSpec(s: ChangeSummary, score: int)
    ensures |Recommendations(s, score)| ==
      (if s.destroy > 0 then 2 else 0) + (if s.replace > 0 then 1 else 0) + (if score > 50 then 2 else 0)
    ensures ReviewDestruction in Recommendations(s, score) <==> s.destroy > 0
    ensures RollbackPlan in Recommendations(s, score) <==> score > 50
  {
    var r := Recommendations(s, score);
    if s.destroy > 0 {
      assert r[0] == ReviewDestruction;
    }
    if score > 50 {
      assert r[|r| - 1] == RollbackPlan;
    }
  }

  /** What `assess_risk` returns for the changes and their summary. */
  function RiskOf(changes: seq<ResourceChange>, s: ChangeSummary): RiskAssessment {
    var checks := ChangesRisk(changes);
    var score := BaseScore(s) + checks.points;
    RiskAssessment(LevelOf(score), score, checks.warnings, Recommendations(s, score))
  }

  /** The three checks of `assess_risk`'s loop body on one change. */
  method CheckChange(c: ResourceChange) returns (points: nat, warnings: seq<string>)
    ensures Assessment(points, warnings) == ChangeRisk(c)
  {
    var h := HighRiskCheck(c);
    points := h.points;
    warnings := h.warnings;
    if SecurityApplies(c) {
      points := points + 10;
      warnings := warnings + [SecurityWarning(c.address)];
    }
    if NetworkApplies(c) {
      points := points + 25;
      warnings := warnings + [NetworkWarning(c.address)];
    }
    assert warnings == h.warnings + SecurityCheck(c).warnings + NetworkCheck(c).warnings;
  }

  /** `assess_risk`: the base score, then every change's checks in order, then the recommendations. */
  method AssessRisk(changes: seq<ResourceChange>, summary: ChangeSummary) returns (r: RiskAssessment)
    ensures r == RiskOf(changes, summary)
  {
    var score: int := BaseScore(summary);
    var warnings: seq<string> := [];
    var i := 0;
    while i < |changes|
      invariant 0 <= i <= |changes|
      invariant score == BaseScore(summary) + ChangesRisk(changes[..i]).points
      invariant warnings == ChangesRisk(changes[..i]).warnings
    {
      var points, found := CheckChange(changes[i]);
      score := score + points;
      warnings := warnings + found;
      SumSnoc(changes, i, ChangeRisk);
      i := i + 1;
    }
    assert changes[..|changes|] == changes;
    r := RiskAssessment(LevelOf(score), score, warnings, Recommendations(summary, score));
  }

  /**
   * More changes never lower the risk: the score does not drop and the
   * earlier warnings stay, in front.
   */
  lemma MoreChangesNoLessRisk(a: seq<ResourceChange>, b: seq<ResourceChange>, s: ChangeSummary)
    ensures RiskOf(a + b, s).score >= RiskOf(a, s).score
    ensures RiskOf(a + b, s).warnings == RiskOf(a, s).warnings + ChangesRisk(b).warnings
  {
    SumAppend(a, b, ChangeRisk);
  }

  function Rank(level: RiskLevel): nat {
    match level
    case Low => 0
    case Medium => 1
    case High => 2
    case Critical => 3
  }

  /** A higher non-negative score never gives a lower level. */
  lemma LevelMonotone(a: int, b: int)
    requires 0 <= a <= b
    ensures Rank(LevelOf(a)) <= Rank(LevelOf(b))
  {
  }

  /** No changes and an empty summary: Low risk, score 0, nothing to say. */
  lemma EmptyPlanIsLow(changes: seq<ResourceChange>, s: ChangeSummary)
    requires |changes| == 0 && Total(s) == 0
    ensures RiskOf(changes, s) == RiskAssessment(Low, 0, [], [])
  {
  }

  /**
   * Deleting a resource of a high-risk type makes the plan Critical and
   * raises a warning that starts with "CRITICAL".
   */
  lemma HighRiskDeleteIsCritical(changes: seq<ResourceChange>, s: ChangeSummary, i: nat)
    requires i < |changes| && changes[i].action == "delete" && changes[i].resourceType in HighRiskResources
    requires s.destroy >= 1
    ensures RiskOf(changes, s).level == Critical
    ensures exists w :: w in RiskOf(changes, s).warnings && StartsWith(w, CriticalTag)
  {
    var c := changes[i];
    var w := DestroyWarning(c.address);
    assert HighRiskCheck(c) == Assessment(50, [w]);
    SumIncludes(changes, i, ChangeRisk);
    DestroyWarningTagged(c.address);
  }

  lemma DestroyWarningTagged(address: string)
    ensures StartsWith(DestroyWarning(address), CriticalTag)
  {
    var rest := ": High-risk resource '" + address + "' will be DESTROYED";
    assert DestroyWarning(address) == CriticalTag + rest;
    assert (CriticalTag + rest)[..|CriticalTag|] == CriticalTag;
  }

  /** Deleting an `aws_db_instance`, the source's own example, is Critical on its own. */
  lemma DbInstanceDeleteIsCritical(c: ResourceChange, s: ChangeSummary)
    requires c.resourceType == "aws_db_instance" && c.action == "delete" && s.destroy == 1
    ensures RiskOf([c], s).level == Critical
  {
    assert HighRiskResources[0] == "aws_db_instance";
    HighRiskDeleteIsCritical([c], s, 0);
  }

  // ---------------------------------------------------------------------
  // References and dependencies
  // ---------------------------------------------------------------------

  /**
   * The string test of `extract_references`: it contains '.', does not
   * start with "http", has no '/', is not the current address, and the
   * part before its first '.' is non-empty and made of alphanumerics, '_'
   * and '-'.
   */
  predicate LooksLikeAddress(s: string, current: string) {
    '.' in s && !StartsWith(s, "http") && '/' !in s && s != current
    && var parts := Split(s, ".");
       |parts| >= 2 && |parts[0]| > 0
       && forall k :: 0 <= k < |parts[0]| ==> IsAsciiAlnum(parts[0][k]) || parts[0][k] == '_' || parts[0][k] == '-'
  }

  /** The `walk` of `extract_references`: every address-like string, depth first, in document order. */
  function Walk(v: Json, current: string): seq<string> {
    match v
    case Str(s) => if LooksLikeAddress(s, current) then [s] else []
    case Arr(items) => Batch.Flatten(seq(|items|, i requires 0 <= i < |items| => Walk(items[i], current)))
    case Obj(members) => Batch.Flatten(seq(|members|, i requires 0 <= i < |members| => Walk(members[i].1, current)))
    case _ => []
  }

  lemma {:induction false} WalkFinds(v: Json, current: string)
    ensures forall s :: s in Walk(v, current) ==> LooksLikeAddress(s, current)
  {
    match v
    case Str(_) =>
    case Arr(items) =>
      var cs := seq(|items|, i requires 0 <= i < |items| => Walk(items[i], current));
      forall s | s in Walk(v, current)
        ensures LooksLikeAddress(s, current)
      {
        Batch.FlattenMembers(cs, s);
        var i :| 0 <= i < |cs| && s in cs[i];
        WalkFinds(items[i], current);
      }
    case Obj(members) =>
      var cs := seq(|members|, i requires 0 <= i < |members| => Walk(members[i].1, current));
      forall s | s in Walk(v, current)
        ensures LooksLikeAddress(s, current)
      {
        Batch.FlattenMembers(cs, s);
        var i :| 0 <= i < |cs| && s in cs[i];
        WalkFinds(members[i].1, current);
      }
    case _ =>
  }

  /** `extract_references`: the walk's finds, sorted and deduplicated. */
  function ExtractReferences(v: Json, current: string): seq<string> {
    SortDedup(Walk(v, current))
  }

  /**
   * The references are strictly increasing (so free of duplicates), are
   * exactly the walk's finds, and are never the current address, a URL
   * or a path.
   */
  lemma ExtractReferencesSpec(v: Json, current: string)
    ensures StrictlySorted(ExtractReferences(v, current))
    ensures forall s :: s in ExtractReferences(v, current) <==> s in Walk(v, current)
    ensures forall s :: s in ExtractReferences(v, current) ==>
      s != current && !StartsWith(s, "http") && '/' !in s && '.' in s
  {
    SortDedupSpec(Walk(v, current));
    WalkFinds(v, current);
  }

  /** The references a change's planned value makes. */
  function RefsOf(c: ResourceChange): seq<string> {
    match c.after
    case Some(v) => ExtractReferences(v, c.address)
    case None => []
  }

  /** A change can disturb what depends on it: delete, update, or anything containing "replace". */
  predicate Disruptive(action: string) {
    action == "delete" || Contains(action, "replace") || action == "update"
  }

  /** The changes whose address `target`'s planned value refers to and that disturb it, in change order. */
  function AffectedBy(changes: seq<ResourceChange>, target: ResourceChange): (r: seq<string>)
    ensures |r| <= |changes|
  {
    if |changes| == 0 then []
    else
      var c := changes[|changes| - 1];
      AffectedBy(changes[..|changes| - 1], target)
      + (if c.address != target.address && Disruptive(c.action) && c.address in RefsOf(target) then [c.address] else [])
  }

  /** The changes whose planned value refers to `address`, in change order. */
  function Affects(changes: seq<ResourceChange>, address: string): (r: seq<string>)
    ensures |r| <= |changes|
  {
    if |changes| == 0 then []
    else
      var c := changes[|changes| - 1];
      Affects(changes[..|changes| - 1], address) + (if address in RefsOf(c) then [c.address] else [])
  }

  /** The impact reported for `target`, if any. */
  function ImpactOf(changes: seq<ResourceChange>, target: ResourceChange): (r: Option<DependencyImpact>)
    ensures r.Some? <==>
      target.action != "no-op" && target.action != "read"
      && (AffectedBy(changes, target) != [] || Affects(changes, target.address) != [])
    ensures r.Some? ==> r.value.resource == target.address
  {
    if target.action == "no-op" || target.action == "read" then None
    else
      var affectedBy := AffectedBy(changes, target);
      var affects := Affects(changes, target.address);
      if affectedBy != [] || affects != [] then Some(DependencyImpact(target.address, affectedBy, affects))
      else None
  }

  /** The impacts of `targets`, in order, against the full change list. */
  function ImpactsOf(changes: seq<ResourceChange>, targets: seq<ResourceChange>): seq<DependencyImpact> {
    if |targets| == 0 then []
    else
      var last := ImpactOf(changes, targets[|targets| - 1]);
      ImpactsOf(changes, targets[..|targets| - 1]) + (if last.Some? then [last.value] else [])
  }

  function Lookup(m: map<string, seq<string>>, key: string): seq<string> {
    if key in m then m[key] else []
  }

  predicate Distinct(refs: seq<string>) {
    forall i, j :: 0 <= i < j < |refs| ==> refs[i] != refs[j]
  }

  lemma ReferencesDistinct(v: Json, current: string)
    ensures Distinct(ExtractReferences(v, current))
  {
    var refs := ExtractReferences(v, current);
    ExtractReferencesSpec(v, current);
    forall i, j | 0 <= i < j < |refs|
      ensures refs[i] != refs[j]
    {
      LessIrreflexive(refs[i]);
    }
  }

  /** Appends `address` under every reference in `refs` (`entry(r).or_default().push(address)`). */
  method AddReferrer(refMap: map<string, seq<string>>, refs: seq<string>, address: string)
    returns (m: map<string, seq<string>>)
    requires Distinct(refs)
    ensures forall a :: Lookup(m, a) == Lookup(refMap, a) + (if a in refs then [address] else [])
  {
    m := refMap;
    var k := 0;
    while k < |refs|
      invariant 0 <= k <= |refs|
      invariant forall a :: Lookup(m, a) == Lookup(refMap, a) + (if a in refs[..k] then [address] else [])
    {
      ghost var m0 := m;
      m := m[refs[k] := Lookup(m, refs[k]) + [address]];
      forall a
        ensures Lookup(m, a) == Lookup(refMap, a) + (if a in refs[..k + 1] then [address] else [])
      {
        if a == refs[k] {
          assert a in refs[..k + 1];
          assert a !in refs[..k];
        } else {
          assert a in refs[..k + 1] <==> a in refs[..k];
          assert Lookup(m, a) == Lookup(m0, a);
        }
      }
      k := k + 1;
    }
    assert refs[..k] == refs;
  }

  /** One more change's references added to a map that was right for the changes before it. */
  lemma RefMapStep(before: map<string, seq<string>>, after: map<string, seq<string>>,
                   changes: seq<ResourceChange>, i: nat)
    requires i < |changes|
    requires forall a :: Lookup(before, a) == Affects(changes[..i], a)
    requires forall a :: (Lookup(after, a) ==
      Lookup(before, a) + (if a in RefsOf(changes[i]) then [changes[i].address] else []))
    ensures forall a :: Lookup(after, a) == Affects(changes[..i + 1], a)
  {
    assert changes[..i + 1][..i] == changes[..i];
  }

  /**
   * The first loop of `analyze_dependencies`: for every reference a
   * change makes, that change's address is appended under the reference.
   */
  method BuildRefMap(changes: seq<ResourceChange>) returns (refMap: map<string, seq<string>>)
    ensures forall a :: Lookup(refMap, a) == Affects(changes, a)
  {
    refMap := map[];
    var i := 0;
    while i < |changes|
      invariant 0 <= i <= |changes|
      invariant forall a :: Lookup(refMap, a) == Affects(changes[..i], a)
    {
      var c := changes[i];
      ghost var before := refMap;
      if c.after.Some? {
        var refs := ExtractReferences(c.after.value, c.address);
        ReferencesDistinct(c.after.value, c.address);
        refMap := AddReferrer(refMap, refs, c.address);
      }
      RefMapStep(before, refMap, changes, i);
      i := i + 1;
    }
    assert changes[..i] == changes;
  }

  /**
   * `analyze_dependencies`: for each change that is not "no-op" or
   * "read", the changes it may be disturbed by and the changes referring
   * to it; reported only when either list is non-empty.
   */
  method AnalyzeDependencies(changes: seq<ResourceChange>) returns (impacts: seq<DependencyImpact>)
    ensures impacts == ImpactsOf(changes, changes)
  {
    var refMap := BuildRefMap(changes);
    impacts := [];
    var i := 0;
    while i < |changes|
      invariant 0 <= i <= |changes|
      invariant impacts == ImpactsOf(changes, changes[..i])
    {
      var c := changes[i];
      assert changes[..i + 1][..i] == changes[..i];
      if c.action != "no-op" && c.action != "read" {
        var affectedBy := AffectedBy(changes, c);
        var affects := Lookup(refMap, c.address);
        if affectedBy != [] || affects != [] {
          impacts := impacts + [DependencyImpact(c.address, affectedBy, affects)];
        }
      }
      i := i + 1;
    }
    assert changes[..i] == changes;
  }

  /** A resource never depends on itself: its own address is in neither of its lists. */
  lemma {:induction false} NoSelfDependency(changes: seq<ResourceChange>, target: ResourceChange)
    ensures target.address !in AffectedBy(changes, target)
    ensures target.address !in Affects(changes, target.address)
  {
    if |changes| > 0 {
      var c := changes[|changes| - 1];
      NoSelfDependency(changes[..|changes| - 1], target);
      if c.after.Some? && target.address in RefsOf(c) {
        ExtractReferencesSpec(c.after.value, c.address);
      }
    }
  }

  /**
   * Every reported impact belongs to a change that is not "no-op" or
   * "read" and has something to report.
   */
  lemma {:induction false} ImpactsReported(changes: seq<ResourceChange>, targets: seq<ResourceChange>, d: DependencyImpact)
    requires d in ImpactsOf(changes, targets)
    ensures d.affectedBy != [] || d.affects != []
    ensures exists t :: t in targets && t.address == d.resource && t.action != "no-op" && t.action != "read"
  {
    var init := targets[..|targets| - 1];
    var last := targets[|targets| - 1];
    if d in ImpactsOf(changes, init) {
      ImpactsReported(changes, init, d);
      var t :| t in init && t.address == d.resource && t.action != "no-op" && t.action != "read";
      assert t in targets;
    } else {
      assert ImpactOf(changes, last) == Some(d);
    }
  }

  // ---------------------------------------------------------------------
  // analyze_plan
  // ---------------------------------------------------------------------

  /** The plan's resource changes; a plan without the field has none. */
  function EntriesOf(plan: TerraformPlan): seq<PlanResourceChange> {
    if plan.resourceChanges.Some? then plan.resourceChanges.value else []
  }

  /**
   * `analyze_plan` on a parsed plan: the summary and the recorded
   * changes, the risk assessment when asked for (otherwise Low, 0 and
   * nothing else), the dependency impacts, and the plan's versions.
   */
  method AnalyzePlan(plan: TerraformPlan, includeRisk: bool) returns (a: PlanAnalysis)
    ensures a.resourceChanges == Batch.Fetched(EntriesOf(plan), ToResourceChange)
    ensures a.summary == SummaryOf(a.resourceChanges)
    ensures includeRisk ==> a.riskAssessment == RiskOf(a.resourceChanges, a.summary)
    ensures !includeRisk ==> a.riskAssessment == RiskAssessment(Low, 0, [], [])
    ensures a.dependencyImpacts == ImpactsOf(a.resourceChanges, a.resourceChanges)
    ensures a.terraformVersion == plan.terraformVersion && a.formatVersion == plan.formatVersion
  {
    var summary, resourceChanges := SummariseChanges(EntriesOf(plan));
    var risk: RiskAssessment;
    if includeRisk {
      risk := AssessRisk(resourceChanges, summary);
    } else {
      risk := RiskAssessment(Low, 0, [], []);
    }
    var impacts := AnalyzeDependencies(resourceChanges);
    a := PlanAnalysis(summary, resourceChanges, risk, impacts, plan.terraformVersion, plan.formatVersion);
  }
}
