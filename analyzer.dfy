/**
 * The module-health analyser (src/terraform/analyzer.rs).  Given the
 * parsed configuration and what the analyser's patterns find in each
 * file, it classifies resource types, judges cohesion and coupling,
 * counts metrics, raises issues, recommends, scores the module, builds a
 * resource dependency graph and proposes refactorings.  The files come in
 * the order the source's `HashMap` yields them; that order is an input.
 */
module Analyzer {
  import opened Wrappers
  import opened Strs
  import Parser

  type Resource = Parser.TerraformResource
  type Variable = Parser.TerraformVariable

  // Thresholds of the analysis.
  const MaxRecommendedVariables: nat := 20
  const WarningVariables: nat := 30
  const CriticalVariables: nat := 50
  const MaxResourceTypes: nat := 5
  const MaxHierarchyDepth: nat := 2

  /** The configuration as the parser summarises it. */
  datatype TerraformAnalysis = TerraformAnalysis(
    projectDirectory: string,
    fileCount: nat,
    resources: seq<Resource>,
    variables: seq<Variable>,
    outputs: seq<Parser.TerraformOutput>,
    providers: seq<Parser.TerraformProvider>)

  /** One file: its name, its text, and what the analyser's patterns find in it. */
  datatype FileScan = FileScan(
    name: string,
    content: string,
    /** Matches of `data "T" "N"`, `locals {` and `module "N" {`. */
    dataSources: nat,
    locals: nat,
    moduleCalls: nat,
    /** Matches of `count =` and of `for_each =`. */
    counts: nat,
    forEaches: nat,
    /** The quoted values of `source = "…"`, in order. */
    moduleSources: seq<string>,
    /** The bracketed lists of `depends_on = […]`, in order. */
    dependsOn: seq<string>,
    /** References `T.N` with T starting `aws_`, `azurerm_`, `google_` or `kubernetes_`, in order. */
    references: seq<(string, string)>)

  // ---------------------------------------------------------------------
  // get_resource_category
  // ---------------------------------------------------------------------

  /** One test of the classifier: any of the keywords in the lower-cased type gives the category. */
  datatype Rule = Rule(keywords: seq<string>, category: string)

  const Other := "other"

  // The tests, one constant each; AWS first, then Azure, then Google Cloud.
  const NetworkingCoreRule := Rule(["vpc", "subnet", "route", "internet_gateway", "nat_gateway", "network_acl"], "networking-core")
  const NetworkingSecurityRule := Rule(["security_group"], "networking-security")
  const NetworkingConnectivityRule := Rule(["vpn", "transit"], "networking-connectivity")
  const NetworkingMonitoringRule := Rule(["flow_log"], "networking-monitoring")
  const LoadBalancingRule := Rule(["lb", "load_balancer", "target_group", "listener"], "load-balancing")
  const ComputeRule := Rule(["instance", "launch_template", "autoscaling"], "compute")
  const DatabaseRule := Rule(["rds", "db_", "dynamodb", "elasticache"], "database")
  const StorageRule := Rule(["s3", "bucket"], "storage")
  const SecurityRule := Rule(["iam", "role", "policy", "kms"], "security")
  const ServerlessRule := Rule(["lambda", "function"], "serverless")
  const ContainersRule := Rule(["eks", "ecs", "kubernetes", "container"], "containers")
  const MonitoringRule := Rule(["cloudwatch", "log_group", "alarm", "metric"], "monitoring")
  const MessagingRule := Rule(["sns", "sqs", "eventbridge"], "messaging")
  const DnsRule := Rule(["route53", "dns", "hosted_zone"], "dns")
  const CertificatesRule := Rule(["acm", "certificate"], "certificates")
  const CdnRule := Rule(["cloudfront", "cdn"], "cdn")
  const ApiRule := Rule(["api_gateway", "apigateway"], "api")
  const AzureNetworkingCoreRule := Rule(["azurerm_virtual_network", "azurerm_subnet", "azurerm_network"], "networking-core")
  const AzureComputeRule := Rule(["azurerm_vm", "azurerm_virtual_machine"], "compute")
  const GcpNetworkingCoreRule := Rule(["google_compute_network", "google_compute_subnetwork"], "networking-core")
  const GcpComputeRule := Rule(["google_compute_instance"], "compute")

  /** The tests in the order the classifier tries them. */
  const Rules: seq<Rule> := [
    NetworkingCoreRule, NetworkingSecurityRule, NetworkingConnectivityRule,
    NetworkingMonitoringRule, LoadBalancingRule, ComputeRule,
    DatabaseRule, StorageRule, SecurityRule,
    ServerlessRule, ContainersRule, MonitoringRule,
    MessagingRule, DnsRule, CertificatesRule,
    CdnRule, ApiRule, AzureNetworkingCoreRule,
    AzureComputeRule, GcpNetworkingCoreRule, GcpComputeRule
  ]

  predicate Fires(rule: Rule, s: string) {
    exists i :: 0 <= i < |rule.keywords| && Contains(s, rule.keywords[i])
  }

  /** The index of the first rule that fires on `s`, if any. */
  function FirstRule(rules: seq<Rule>, s: string): (r: Option<nat>)
    ensures r.Some? ==> r.value < |rules| && Fires(rules[r.value], s)
    ensures r.Some? ==> forall j :: 0 <= j < r.value ==> !Fires(rules[j], s)
    ensures r.None? ==> forall j :: 0 <= j < |rules| ==> !Fires(rules[j], s)
  {
    if |rules| == 0 then None
    else if Fires(rules[0], s) then Some(0)
    else
      match FirstRule(rules[1..], s)
      case None => None
      case Some(k) => Some(k + 1)
  }

  /** `get_resource_category`: the category of the first test that fires on the lower-cased type, else "other". */
  function Category(resourceType: string): string {
    match FirstRule(Rules, ToLower(resourceType))
    case None => Other
    case Some(i) => Rules[i].category
  }

  /** The rule that fires first decides the category. */
  lemma CategoryOfFirst(resourceType: string, k: nat)
    requires k < |Rules| && Fires(Rules[k], ToLower(resourceType))
    requires forall j :: 0 <= j < k ==> !Fires(Rules[j], ToLower(resourceType))
    ensures Category(resourceType) == Rules[k].category
  {
  }

  /** "other" is the answer exactly when no test fires. */
  lemma CategoryOther(resourceType: string)
    ensures Category(resourceType) == Other <==> forall j :: 0 <= j < |Rules| ==> !Fires(Rules[j], ToLower(resourceType))
  {
    var r := FirstRule(Rules, ToLower(resourceType));
    if r.Some? {
      var c := Rules[r.value].category;
      assert c != Other by { RulesNamed(r.value); }
    }
  }

  lemma RulesNamed(i: nat)
    requires i < |Rules|
    ensures Rules[i].category != Other
  {
  }

  /**
   * Any type holding "route" is networking-core, whatever else it holds:
   * the first test shadows the "route53" keyword of the DNS test.
   */
  lemma RouteShadowsDns(resourceType: string)
    requires Contains(ToLower(resourceType), "route")
    ensures Category(resourceType) == "networking-core"
  {
    assert Rules[0].keywords[2] == "route";
    CategoryOfFirst(resourceType, 0);
  }

  // The classifications the source's tests pin.

  lemma VpcIsNetworkingCore(s: string)
    requires s == "aws_vpc"
    ensures Category(s) == "networking-core"
  {
    LowerId(s);
    ContainsAt(s, "vpc", 4);
    assert Rules[0].keywords[0] == "vpc";
    CategoryOfFirst(s, 0);
  }

  lemma SubnetIsNetworkingCore(s: string)
    requires s == "aws_subnet"
    ensures Category(s) == "networking-core"
  {
    LowerId(s);
    ContainsAt(s, "subnet", 4);
    assert Rules[0].keywords[1] == "subnet";
    CategoryOfFirst(s, 0);
  }

  /** A character of each keyword that `s` lacks silences the rule. */
  lemma SilentByChars(s: string, rule: Rule, cs: seq<char>)
    requires |cs| == |rule.keywords|
    requires forall i :: 0 <= i < |cs| ==> cs[i] in rule.keywords[i] && cs[i] !in s
    ensures !Fires(rule, s)
  {
    forall i | 0 <= i < |cs| ensures !Contains(s, rule.keywords[i]) {
      ContainsChars(s, rule.keywords[i], cs[i]);
    }
  }

  predicate NotAt(s: string, sub: string, k: nat) {
    k + |sub| > |s| || s[k..k + |sub|] != sub
  }

  /** A text that starts at no position from `i` on is not contained in the rest from `i`. */
  lemma {:induction false} AbsentFrom(s: string, sub: string, i: nat)
    requires i <= |s| && |sub| > 0
    requires forall k :: i <= k <= |s| ==> NotAt(s, sub, k)
    ensures !Contains(s[i..], sub)
    decreases |s| - i
  {
    assert NotAt(s, sub, i);
    if i < |s| {
      assert s[i..][1..] == s[i + 1..];
      AbsentFrom(s, sub, i + 1);
    }
  }

  lemma InstanceIsCompute(s: string)
    requires s == "aws_instance"
    ensures Category(s) == "compute"
  {
    LowerId(s);
    InstanceSilent(s);
    ContainsAt(s, "instance", 4);
    assert Rules[5].keywords[0] == "instance";
    CategoryOfFirst(s, 5);
  }

  lemma InstanceSilent(s: string)
    requires s == "aws_instance"
    ensures forall j :: 0 <= j < 5 ==> !Fires(Rules[j], s)
  {
    InstanceNotNetworking(s);
    SilentByChars(s, NetworkingMonitoringRule, ['f']);
    SilentByChars(s, LoadBalancingRule, ['l', 'l', 'r', 'l']);
  }

  lemma InstanceNotNetworking(s: string)
    requires s == "aws_instance"
    ensures !Fires(NetworkingCoreRule, s) && !Fires(NetworkingSecurityRule, s) && !Fires(NetworkingConnectivityRule, s)
  {
    InstanceNotNetworkingCore(s);
    SilentByChars(s, NetworkingSecurityRule, ['u']);
    SilentByChars(s, NetworkingConnectivityRule, ['v', 'r']);
  }

  lemma InstanceNotNetworkingCore(s: string)
    requires s == "aws_instance"
    ensures !Fires(NetworkingCoreRule, s)
  {
    SilentByChars(s, NetworkingCoreRule, ['v', 'b', 'r', 'r', 'g', 'k']);
  }

  lemma BucketIsStorage(s: string)
    requires s == "aws_s3_bucket"
    ensures Category(s) == "storage"
  {
    LowerId(s);
    BucketSilent(s);
    ContainsAt(s, "s3", 4);
    assert Rules[7].keywords[0] == "s3";
    CategoryOfFirst(s, 7);
  }

  lemma BucketSilent(s: string)
    requires s == "aws_s3_bucket"
    ensures forall j :: 0 <= j < 7 ==> !Fires(Rules[j], s)
  {
    BucketNotNetworking(s);
    BucketNotCompute(s);
    SilentByChars(s, NetworkingMonitoringRule, ['f']);
  }

  lemma BucketNotNetworking(s: string)
    requires s == "aws_s3_bucket"
    ensures !Fires(NetworkingCoreRule, s) && !Fires(NetworkingSecurityRule, s) && !Fires(NetworkingConnectivityRule, s)
  {
    BucketNotNetworkingCore(s);
    SilentByChars(s, NetworkingSecurityRule, ['r']);
    SilentByChars(s, NetworkingConnectivityRule, ['v', 'r']);
  }

  lemma BucketNotNetworkingCore(s: string)
    requires s == "aws_s3_bucket"
    ensures !Fires(NetworkingCoreRule, s)
  {
    SilentByChars(s, NetworkingCoreRule, ['v', 'n', 'r', 'i', 'n', 'n']);
  }

  lemma BucketNotCompute(s: string)
    requires s == "aws_s3_bucket"
    ensures !Fires(LoadBalancingRule, s) && !Fires(ComputeRule, s) && !Fires(DatabaseRule, s)
  {
    BucketNotLoadBalancing(s);
    BucketNotComputeRule(s);
    BucketNotDatabase(s);
  }

  lemma BucketNotLoadBalancing(s: string)
    requires s == "aws_s3_bucket"
    ensures !Fires(LoadBalancingRule, s)
  {
    SilentByChars(s, LoadBalancingRule, ['l', 'l', 'r', 'l']);
  }

  lemma BucketNotComputeRule(s: string)
    requires s == "aws_s3_bucket"
    ensures !Fires(ComputeRule, s)
  {
    SilentByChars(s, ComputeRule, ['i', 'l', 'o']);
  }

  lemma BucketNotDatabase(s: string)
    requires s == "aws_s3_bucket"
    ensures !Fires(DatabaseRule, s)
  {
    SilentByChars(s, DatabaseRule, ['r', 'd', 'd', 'l']);
  }

  lemma SecurityGroupIsNetworkingSecurity(s: string)
    requires s == "aws_security_group"
    ensures Category(s) == "networking-security"
  {
    LowerId(s);
    SecurityGroupSilent(s);
    SecurityGroupFires(s);
    SecurityCategory(s);
  }

  lemma SecurityGroupFires(s: string)
    requires s == "aws_security_group"
    ensures Fires(NetworkingSecurityRule, s)
  {
    ContainsAt(s, NetworkingSecurityRule.keywords[0], 4);
  }

  /** A lower-case text that fires the security-group rule and not the core rule is networking-security. */
  lemma SecurityCategory(s: string)
    requires ToLower(s) == s && !Fires(Rules[0], s) && Fires(NetworkingSecurityRule, s)
    ensures Category(s) == NetworkingSecurityRule.category
  {
    assert Rules[1] == NetworkingSecurityRule;
    CategoryOfFirst(s, 1);
  }

  lemma SecurityGroupSilent(s: string)
    requires s == "aws_security_group"
    ensures !Fires(Rules[0], s)
  {
    SecurityGroupNotNetworkingCore(s);
  }

  lemma SecurityGroupNotNetworkingCore(s: string)
    requires s == "aws_security_group"
    ensures !Fires(NetworkingCoreRule, s)
  {
    SecurityGroupLacksVpcSubnet(s);
    SecurityGroupLacksN(s);
    CoreSilent(s);
  }

  /** A text that holds none of the six core-networking keywords does not fire that rule. */
  lemma CoreSilent(s: string)
    requires !Contains(s, NetworkingCoreRule.keywords[0]) && !Contains(s, NetworkingCoreRule.keywords[1])
    requires !Contains(s, NetworkingCoreRule.keywords[2]) && !Contains(s, NetworkingCoreRule.keywords[3])
    requires !Contains(s, NetworkingCoreRule.keywords[4]) && !Contains(s, NetworkingCoreRule.keywords[5])
    ensures !Fires(NetworkingCoreRule, s)
  {
  }

  lemma SecurityGroupLacksVpcSubnet(s: string)
    requires s == "aws_security_group"
    ensures !Contains(s, NetworkingCoreRule.keywords[0]) && !Contains(s, NetworkingCoreRule.keywords[1])
  {
    SecurityGroupLacksVpc(s);
    SecurityGroupLacksSubnet(s);
  }

  lemma SecurityGroupLacksVpc(s: string)
    requires s == "aws_security_group"
    ensures !Contains(s, NetworkingCoreRule.keywords[0])
  {
    ContainsChars(s, NetworkingCoreRule.keywords[0], 'v');
  }

  lemma SecurityGroupLacksSubnet(s: string)
    requires s == "aws_security_group"
    ensures !Contains(s, NetworkingCoreRule.keywords[1])
  {
    ContainsChars(s, NetworkingCoreRule.keywords[1], 'b');
  }

  lemma SecurityGroupLacksN(s: string)
    requires s == "aws_security_group"
    ensures !Contains(s, NetworkingCoreRule.keywords[2]) && !Contains(s, NetworkingCoreRule.keywords[3]) && !Contains(s, NetworkingCoreRule.keywords[4]) && !Contains(s, NetworkingCoreRule.keywords[5])
  {
    SecurityGroupNoRoute(s);
    ContainsChars(s, NetworkingCoreRule.keywords[3], 'n');
    ContainsChars(s, NetworkingCoreRule.keywords[4], 'n');
    ContainsChars(s, NetworkingCoreRule.keywords[5], 'n');
  }

  /** "route" occurs nowhere in "aws_security_group", though each of its letters does. */
  lemma SecurityGroupNoRoute(s: string)
    requires s == "aws_security_group"
    ensures !Contains(s, "route")
  {
    forall k | 0 <= k <= |s| ensures NotAt(s, "route", k) {
      if k + 5 <= |s| {
        assert s[k..k + 5][0] == s[k];
        assert s[k..k + 5][1] == s[k + 1];
      }
    }
    AbsentFrom(s, "route", 0);
    assert s[0..] == s;
  }

  lemma VpnGatewayIsNetworkingConnectivity(s: string)
    requires s == "aws_vpn_gateway"
    ensures Category(s) == "networking-connectivity"
  {
    LowerId(s);
    VpnGatewaySilent(s);
    ContainsAt(s, "vpn", 4);
    assert Rules[2].keywords[0] == "vpn";
    CategoryOfFirst(s, 2);
  }

  lemma VpnGatewaySilent(s: string)
    requires s == "aws_vpn_gateway"
    ensures forall j :: 0 <= j < 2 ==> !Fires(Rules[j], s)
  {
    VpnGatewayNotNetworkingCore(s);
    SilentByChars(s, NetworkingSecurityRule, ['r']);
  }

  lemma VpnGatewayNotNetworkingCore(s: string)
    requires s == "aws_vpn_gateway"
    ensures !Fires(NetworkingCoreRule, s)
  {
    VpnGatewayLacksVpcSubnet(s);
    VpnGatewayLacksRI(s);
    CoreSilent(s);
  }

  lemma VpnGatewayLacksVpcSubnet(s: string)
    requires s == "aws_vpn_gateway"
    ensures !Contains(s, NetworkingCoreRule.keywords[0]) && !Contains(s, NetworkingCoreRule.keywords[1])
  {
    VpnGatewayLacksVpc(s);
    VpnGatewayLacksSubnet(s);
  }

  lemma VpnGatewayLacksVpc(s: string)
    requires s == "aws_vpn_gateway"
    ensures !Contains(s, NetworkingCoreRule.keywords[0])
  {
    ContainsChars(s, NetworkingCoreRule.keywords[0], 'c');
  }

  lemma VpnGatewayLacksSubnet(s: string)
    requires s == "aws_vpn_gateway"
    ensures !Contains(s, NetworkingCoreRule.keywords[1])
  {
    ContainsChars(s, NetworkingCoreRule.keywords[1], 'u');
  }

  lemma VpnGatewayLacksRI(s: string)
    requires s == "aws_vpn_gateway"
    ensures !Contains(s, NetworkingCoreRule.keywords[2]) && !Contains(s, NetworkingCoreRule.keywords[3]) && !Contains(s, NetworkingCoreRule.keywords[4]) && !Contains(s, NetworkingCoreRule.keywords[5])
  {
    VpnGatewayNoNatGateway(s);
    ContainsChars(s, NetworkingCoreRule.keywords[2], 'r');
    ContainsChars(s, NetworkingCoreRule.keywords[3], 'i');
    ContainsChars(s, NetworkingCoreRule.keywords[5], 'r');
  }

  /** "nat_gateway" occurs nowhere in "aws_vpn_gateway", though each of its letters does. */
  lemma VpnGatewayNoNatGateway(s: string)
    requires s == "aws_vpn_gateway"
    ensures !Contains(s, "nat_gateway")
  {
    forall k | 0 <= k <= |s| ensures NotAt(s, "nat_gateway", k) {
      if k + 11 <= |s| {
        assert s[k..k + 11][0] == s[k];
      }
    }
    AbsentFrom(s, "nat_gateway", 0);
    assert s[0..] == s;
  }

  // ---------------------------------------------------------------------
  // calculate_metrics
  // ---------------------------------------------------------------------

  datatype ModuleMetrics = ModuleMetrics(
    variableCount: nat,
    outputCount: nat,
    resourceCount: nat,
    resourceTypeCount: nat,
    providerCount: nat,
    dataSourceCount: nat,
    localCount: nat,
    moduleCallCount: nat,
    fileCount: nat,
    linesOfCode: nat,
    hierarchyDepth: nat,
    variablesWithDefaults: nat,
    variablesWithoutDescription: nat)

  /** A module source inside this repository: it starts with "./" or "../". */
  predicate IsLocalSource(source: string) {
    StartsWith(source, "./") || StartsWith(source, "../")
  }

  /** How deep a source nests: its '/' count when local, nothing otherwise. */
  function SourceDepth(source: string): nat {
    if IsLocalSource(source) then CountChar(source, '/') else 0
  }

  /** Every module source of the files, file by file. */
  function AllSources(files: seq<FileScan>): seq<string> {
    if |files| == 0 then [] else AllSources(files[..|files| - 1]) + files[|files| - 1].moduleSources
  }

  /** The deepest local source, 0 when there is none: the running `max` of the scan. */
  function DeepestOf(sources: seq<string>): nat {
    if |sources| == 0 then 0
    else
      var d := DeepestOf(sources[..|sources| - 1]);
      var e := SourceDepth(sources[|sources| - 1]);
      if e > d then e else d
  }

  /** The depth bounds every local source and is reached by one, or is 0 with no local source at all. */
  lemma {:induction false} DeepestIsMax(sources: seq<string>)
    ensures forall k :: 0 <= k < |sources| && IsLocalSource(sources[k]) ==> CountChar(sources[k], '/') <= DeepestOf(sources)
    ensures DeepestOf(sources) == 0 <==> forall k :: 0 <= k < |sources| ==> !IsLocalSource(sources[k])
    ensures DeepestOf(sources) > 0 ==> exists k :: 0 <= k < |sources| && IsLocalSource(sources[k]) && CountChar(sources[k], '/') == DeepestOf(sources)
  {
    if |sources| > 0 {
      var init, last := sources[..|sources| - 1], sources[|sources| - 1];
      DeepestIsMax(init);
      assert forall k :: 0 <= k < |init| ==> init[k] == sources[k];
      LocalHasSlash(last);
      if DeepestOf(sources) > 0 && DeepestOf(sources) != DeepestOf(init) {
        assert CountChar(last, '/') == DeepestOf(sources);
      }
      forall k | 0 <= k < |sources| && IsLocalSource(sources[k]) ensures DeepestOf(sources) > 0 {
        LocalHasSlash(sources[k]);
      }
    }
  }

  /** A local source holds at least one '/'. */
  lemma LocalHasSlash(source: string)
    ensures IsLocalSource(source) ==> CountChar(source, '/') > 0
  {
    if StartsWith(source, "./") {
      assert source[1] == '/';
    } else if StartsWith(source, "../") {
      assert source[2] == '/';
    }
  }

  /** What the scan of the files adds up. */
  datatype Totals = Totals(dataSources: nat, locals: nat, moduleCalls: nat, lines: nat, depth: nat)

  /** The totals over the files, in the order they are scanned. */
  function TotalsOf(files: seq<FileScan>): (t: Totals)
    ensures t.depth == DeepestOf(AllSources(files))
  {
    if |files| == 0 then Totals(0, 0, 0, 0, 0)
    else
      var t := TotalsOf(files[..|files| - 1]);
      var f := files[|files| - 1];
      DeepestAppend(AllSources(files[..|files| - 1]), f.moduleSources);
      Totals(t.dataSources + f.dataSources, t.locals + f.locals, t.moduleCalls + f.moduleCalls,
             t.lines + |Lines(f.content)|, Max(t.depth, DeepestOf(f.moduleSources)))
  }

  function Max(a: nat, b: nat): nat { if a >= b then a else b }

  lemma {:induction false} DeepestAppend(a: seq<string>, b: seq<string>)
    ensures DeepestOf(a + b) == Max(DeepestOf(a), DeepestOf(b))
    decreases |b|
  {
    if |b| == 0 {
      assert a + b == a;
    } else {
      assert (a + b)[..|a + b| - 1] == a + b[..|b| - 1];
      DeepestAppend(a, b[..|b| - 1]);
    }
  }

  /** A variable lacks documentation when it has no description or an empty one. */
  predicate Undocumented(v: Variable) {
    v.description.None? || v.description.value == ""
  }

  function NameIfUndocumented(v: Variable): Option<string> {
    if Undocumented(v) then Some(v.name) else None
  }

  /** The names of the undocumented variables, in declaration order. */
  function UndocumentedNames(vs: seq<Variable>): seq<string> {
    FilterMap(vs, NameIfUndocumented)
  }

  function DefaultCount(vs: seq<Variable>): (n: nat)
    ensures n <= |vs|
  {
    if |vs| == 0 then 0 else DefaultCount(vs[..|vs| - 1]) + (if vs[|vs| - 1].default.Some? then 1 else 0)
  }

  function TypeOf(r: Resource): string { r.resourceType }

  /** The metrics of a configuration whose files scan to `files`. */
  function MetricsOf(analysis: TerraformAnalysis, files: seq<FileScan>): ModuleMetrics {
    var t := TotalsOf(files);
    ModuleMetrics(
      |analysis.variables|, |analysis.outputs|, |analysis.resources|,
      |set r | r in analysis.resources :: r.resourceType|,
      |analysis.providers|, t.dataSources, t.locals, t.moduleCalls,
      analysis.fileCount, t.lines, t.depth,
      DefaultCount(analysis.variables), |UndocumentedNames(analysis.variables)|)
  }

  /** `calculate_metrics`: one pass over the files, then the counts over the configuration. */
  method CalculateMetrics(analysis: TerraformAnalysis, files: seq<FileScan>) returns (m: ModuleMetrics)
    ensures m == MetricsOf(analysis, files)
    ensures m.hierarchyDepth == DeepestOf(AllSources(files))
    ensures m.variablesWithoutDescription <= m.variableCount
  {
    var t := Totals(0, 0, 0, 0, 0);
    var i := 0;
    while i < |files|
      invariant 0 <= i <= |files|
      invariant t == TotalsOf(files[..i])
    {
      assert files[..i + 1][..i] == files[..i];
      t := ScanFile(t, files[i]);
      i := i + 1;
    }
    assert files[..i] == files;
    m := ModuleMetrics(
      |analysis.variables|, |analysis.outputs|, |analysis.resources|,
      |set r | r in analysis.resources :: r.resourceType|,
      |analysis.providers|, t.dataSources, t.locals, t.moduleCalls,
      analysis.fileCount, t.lines, t.depth,
      DefaultCount(analysis.variables), |UndocumentedNames(analysis.variables)|);
  }

  /** The body of the scan for one file; the inner loop keeps the deepest local source. */
  method ScanFile(t: Totals, f: FileScan) returns (t': Totals)
    ensures t' == Totals(t.dataSources + f.dataSources, t.locals + f.locals, t.moduleCalls + f.moduleCalls,
                         t.lines + |Lines(f.content)|, Max(t.depth, DeepestOf(f.moduleSources)))
  {
    var depth := t.depth;
    var j := 0;
    while j < |f.moduleSources|
      invariant 0 <= j <= |f.moduleSources|
      invariant depth == Max(t.depth, DeepestOf(f.moduleSources[..j]))
    {
      var source := f.moduleSources[j];
      assert f.moduleSources[..j + 1][..j] == f.moduleSources[..j];
      if IsLocalSource(source) {
        var d := CountChar(source, '/');
        depth := Max(depth, d);
      }
      j := j + 1;
    }
    assert f.moduleSources[..j] == f.moduleSources;
    t' := Totals(t.dataSources + f.dataSources, t.locals + f.locals, t.moduleCalls + f.moduleCalls,
                 t.lines + |Lines(f.content)|, depth);
  }

  // ---------------------------------------------------------------------
  // analyze_cohesion, are_categories_related
  // ---------------------------------------------------------------------

  datatype ResourceTypeGroup = ResourceTypeGroup(name: string, resourceTypes: set<string>, resourceCount: nat)

  datatype CohesionType = Functional | Sequential | Communicational | Logical | Coincidental

  datatype CohesionAnalysis = CohesionAnalysis(
    cohesionType: CohesionType,
    score: nat,
    resourceTypeGroups: seq<ResourceTypeGroup>,
    explanation: string)

  /** Files a resource of type `t` under category `c`: its group grows, or a new group is appended. */
  function AddToGroups(groups: seq<ResourceTypeGroup>, c: string, t: string): (r: seq<ResourceTypeGroup>)
    ensures |r| == |groups| || |r| == |groups| + 1
  {
    if |groups| == 0 then [ResourceTypeGroup(c, {t}, 1)]
    else if groups[0].name == c then
      [groups[0].(resourceTypes := groups[0].resourceTypes + {t}, resourceCount := groups[0].resourceCount + 1)] + groups[1..]
    else [groups[0]] + AddToGroups(groups[1..], c, t)
  }

  /** The groups the resources fall into, in order of first appearance. */
  function GroupsOf(rs: seq<Resource>, classify: string -> string): seq<ResourceTypeGroup> {
    if |rs| == 0 then []
    else
      var t := rs[|rs| - 1].resourceType;
      AddToGroups(GroupsOf(rs[..|rs| - 1], classify), classify(t), t)
  }

  function GroupNames(groups: seq<ResourceTypeGroup>): (r: seq<string>)
    ensures |r| == |groups| && forall i :: 0 <= i < |groups| ==> r[i] == groups[i].name
  {
    if |groups| == 0 then [] else [groups[0].name] + GroupNames(groups[1..])
  }

  function GroupCount(g: ResourceTypeGroup): nat { g.resourceCount }

  /** Group names are pairwise distinct. */
  predicate DistinctNames(groups: seq<ResourceTypeGroup>) {
    forall i, j :: 0 <= i < j < |groups| ==> groups[i].name != groups[j].name
  }

  /** Every type in a group belongs to the group's category. */
  predicate TypesFit(groups: seq<ResourceTypeGroup>, classify: string -> string) {
    forall i, t :: 0 <= i < |groups| && t in groups[i].resourceTypes ==> classify(t) == groups[i].name
  }

  /** Adding one resource: the names gain `c` and nothing else. */
  lemma {:induction false} AddToGroupsNames(groups: seq<ResourceTypeGroup>, c: string, t: string)
    ensures forall n :: n in GroupNames(AddToGroups(groups, c, t)) <==> n in GroupNames(groups) || n == c
    decreases |groups|
  {
    if |groups| > 0 && groups[0].name != c {
      AddToGroupsNames(groups[1..], c, t);
    }
  }

  /** Adding one resource keeps the names distinct. */
  lemma {:induction false} AddToGroupsDistinct(groups: seq<ResourceTypeGroup>, c: string, t: string)
    requires DistinctNames(groups)
    ensures DistinctNames(AddToGroups(groups, c, t))
    decreases |groups|
  {
    if |groups| > 0 {
      var rest := groups[1..];
      if groups[0].name != c {
        AddToGroupsDistinct(rest, c, t);
        AddToGroupsNames(rest, c, t);
        assert groups[0].name !in GroupNames(rest);
        ConsDistinct(groups[0], AddToGroups(rest, c, t));
      } else {
        var r := AddToGroups(groups, c, t);
        forall i, j | 0 <= i < j < |r| ensures r[i].name != r[j].name {
          assert r[i].name == groups[i].name && r[j].name == groups[j].name;
        }
      }
    }
  }

  /** A group whose name is new can go in front of groups with distinct names. */
  lemma ConsDistinct(g: ResourceTypeGroup, groups: seq<ResourceTypeGroup>)
    requires DistinctNames(groups) && g.name !in GroupNames(groups)
    ensures DistinctNames([g] + groups)
  {
    var r := [g] + groups;
    forall i, j | 0 <= i < j < |r| ensures r[i].name != r[j].name {
      assert r[j] == groups[j - 1];
      assert GroupNames(groups)[j - 1] == r[j].name;
      if i > 0 { assert r[i] == groups[i - 1]; }
    }
  }

  /** Adding a resource of category `c` to its group keeps every type in its category's group. */
  lemma {:induction false} AddToGroupsFit(groups: seq<ResourceTypeGroup>, c: string, t: string, classify: string -> string)
    requires TypesFit(groups, classify) && classify(t) == c
    ensures TypesFit(AddToGroups(groups, c, t), classify)
    decreases |groups|
  {
    var r := AddToGroups(groups, c, t);
    if |groups| > 0 && groups[0].name != c {
      var rr := AddToGroups(groups[1..], c, t);
      AddToGroupsFit(groups[1..], c, t, classify);
      forall i, u | 0 <= i < |r| && u in r[i].resourceTypes ensures classify(u) == r[i].name {
        if i > 0 { assert r[i] == rr[i - 1]; }
      }
    } else if |groups| > 0 {
      forall i, u | 0 <= i < |r| && u in r[i].resourceTypes ensures classify(u) == r[i].name {
        if i > 0 { assert r[i] == groups[i]; }
      }
    }
  }

  /** Adding one resource adds one to the total count. */
  lemma {:induction false} AddToGroupsCount(groups: seq<ResourceTypeGroup>, c: string, t: string)
    ensures SumBy(AddToGroups(groups, c, t), GroupCount) == SumBy(groups, GroupCount) + 1
    decreases |groups|
  {
    var r := AddToGroups(groups, c, t);
    if |groups| > 0 {
      if groups[0].name == c {
        assert r[1..] == groups[1..];
      } else {
        AddToGroupsCount(groups[1..], c, t);
        assert r[1..] == AddToGroups(groups[1..], c, t);
      }
    }
  }

  /**
   * The groups partition the resources by category: their names are
   * distinct, every type sits in its own category's group, and the
   * counts add up to the number of resources.
   */
  lemma {:induction false} GroupsPartition(rs: seq<Resource>, classify: string -> string)
    ensures DistinctNames(GroupsOf(rs, classify)) && TypesFit(GroupsOf(rs, classify), classify)
    ensures SumBy(GroupsOf(rs, classify), GroupCount) == |rs|
  {
    if |rs| > 0 {
      var init := rs[..|rs| - 1];
      var t := rs[|rs| - 1].resourceType;
      GroupsPartition(init, classify);
      AddToGroupsDistinct(GroupsOf(init, classify), classify(t), t);
      AddToGroupsFit(GroupsOf(init, classify), classify(t), t, classify);
      AddToGroupsCount(GroupsOf(init, classify), classify(t), t);
    }
  }

  /** The group names are exactly the categories of the resources. */
  lemma {:induction false} GroupsNamed(rs: seq<Resource>, classify: string -> string, n: string)
    ensures n in GroupNames(GroupsOf(rs, classify)) <==> exists k :: 0 <= k < |rs| && classify(rs[k].resourceType) == n
  {
    if |rs| > 0 {
      var init := rs[..|rs| - 1];
      var t := rs[|rs| - 1].resourceType;
      GroupsNamed(init, classify, n);
      AddToGroupsNames(GroupsOf(init, classify), classify(t), t);
      if exists k :: 0 <= k < |init| && classify(init[k].resourceType) == n {
        var k :| 0 <= k < |init| && classify(init[k].resourceType) == n;
        assert rs[k] == init[k];
      }
      if exists k :: 0 <= k < |rs| && classify(rs[k].resourceType) == n {
        var k :| 0 <= k < |rs| && classify(rs[k].resourceType) == n;
        if k < |init| { assert init[k] == rs[k]; }
      }
    }
  }

  /** The pairs of categories that serve one function together. */
  const RelatedPairs: seq<(string, string)> := [
    ("networking-core", "networking-security"),
    ("compute", "load-balancing"),
    ("database", "storage"),
    ("containers", "load-balancing"),
    ("serverless", "api"),
    ("monitoring", "logging")
  ]

  /** `are_categories_related`: exactly two names forming a related pair, in either order. */
  predicate AreCategoriesRelated(categories: seq<string>) {
    |categories| == 2 &&
    exists k :: 0 <= k < |RelatedPairs| &&
      ((categories[0] == RelatedPairs[k].0 && categories[1] == RelatedPairs[k].1) ||
       (categories[0] == RelatedPairs[k].1 && categories[1] == RelatedPairs[k].0))
  }

  /** Relatedness ignores the order of the two names and needs exactly two. */
  lemma RelatedSymmetric(a: string, b: string, categories: seq<string>)
    ensures AreCategoriesRelated([a, b]) <==> AreCategoriesRelated([b, a])
    ensures AreCategoriesRelated(categories) ==> |categories| == 2
  {
  }

  /** No rule yields "logging", so the last related pair never matches two groups. */
  lemma NeverLogging(resourceType: string)
    ensures Category(resourceType) != "logging"
  {
    match FirstRule(Rules, ToLower(resourceType))
    case None =>
    case Some(i) => RulesNotLogging(i);
  }

  lemma RulesNotLogging(i: nat)
    requires i < |Rules|
    ensures Rules[i].category != "logging"
  {
  }

  /** The class and score for `n` categories, `related` telling whether two of them belong together. */
  function Classify(n: nat, related: bool): (CohesionType, nat) {
    if n == 0 then (Functional, 100)
    else if n == 1 then (Functional, 95)
    else if n == 2 then (if related then (Sequential, 85) else (Communicational, 70))
    else if n <= 4 then (Logical, 50)
    else (Coincidental, 25)
  }

  /** The explanation the analysis gives for its class. */
  function Explain(groups: seq<ResourceTypeGroup>, total: nat): string {
    var n := |groups|;
    var names := GroupNames(groups);
    if n == 0 then "Empty module or no resources analyzed"
    else if n == 1 then
      "Excellent cohesion: All " + NatToString(total) + " resources belong to '" + groups[0].name + "' category"
    else if n == 2 then
      if AreCategoriesRelated(names) then
        "Good cohesion: 2 categories (" + Join(names, ", ") + ") are functionally related"
      else
        "Moderate cohesion: 2 categories (" + Join(names, ", ") + ") - consider if they should be separate modules"
    else if n <= 4 then
      "Weak cohesion: " + NatToString(n) + " different resource categories. Resources are grouped by type rather than function. Consider splitting into focused modules."
    else
      "Poor cohesion: " + NatToString(n) + " different resource categories mixed together. This 'kitchen sink' module should be split."
  }

  /** The analysis of the groups found among `total` resources. */
  function Judge(groups: seq<ResourceTypeGroup>, total: nat): CohesionAnalysis {
    var k := Classify(|groups|, AreCategoriesRelated(GroupNames(groups)));
    CohesionAnalysis(k.0, k.1, groups, Explain(groups, total))
  }

  /** The number of categories decides the class; the score never rises with more categories. */
  lemma ClassifyByCount(n: nat, related: bool, n': nat, related': bool)
    ensures var k := Classify(n, related);
      (k.0 == Functional <==> n <= 1)
      && (k.0 == Sequential <==> n == 2 && related)
      && (k.0 == Communicational <==> n == 2 && !related)
      && (k.0 == Logical <==> 3 <= n <= 4)
      && (k.0 == Coincidental <==> n >= 5)
      && 25 <= k.1 <= 100
      && (k.1 == 100 <==> n == 0)
    ensures n < n' ==> Classify(n, related).1 >= Classify(n', related').1
  {
  }

  /** `analyze_cohesion`: group the resources by category, then judge the number of groups. */
  method AnalyzeCohesion(analysis: TerraformAnalysis) returns (c: CohesionAnalysis)
    ensures c == Judge(GroupsOf(analysis.resources, Category), |analysis.resources|)
  {
    var rs := analysis.resources;
    var groups: seq<ResourceTypeGroup> := [];
    var i := 0;
    while i < |rs|
      invariant 0 <= i <= |rs|
      invariant groups == GroupsOf(rs[..i], Category)
    {
      assert rs[..i + 1][..i] == rs[..i];
      var t := rs[i].resourceType;
      groups := AddToGroups(groups, Category(t), t);
      i := i + 1;
    }
    assert rs[..i] == rs;
    c := Judge(groups, |rs|);
  }

  // ---------------------------------------------------------------------
  // analyze_coupling
  // ---------------------------------------------------------------------

  datatype CouplingType = Data | Stamp | Control

  datatype ModuleDependency = ModuleDependency(
    sourceModule: string,
    targetModule: string,
    dependencyType: string,
    variablesPassed: seq<string>)

  datatype CouplingAnalysis = CouplingAnalysis(
    couplingType: CouplingType,
    score: nat,
    dependencies: seq<ModuleDependency>)

  const PublicRegistry := "public-registry"

  /** How a module source is classified: a registry address or a remote path first, then a local path. */
  function DependencyKind(source: string): string {
    if StartsWith(source, "registry.terraform.io") || StartsWith(source, "terraform-")
       || ('/' in source && !StartsWith(source, "./") && !StartsWith(source, "../"))
    then PublicRegistry
    else if StartsWith(source, "./") || StartsWith(source, "../") then "local"
    else "other"
  }

  /** A source is "local" exactly when it starts with "./" or "../"; a public one never does. */
  lemma DependencyKindLocal(source: string)
    ensures DependencyKind(source) == "local" <==> IsLocalSource(source)
    ensures DependencyKind(source) == PublicRegistry ==> !IsLocalSource(source)
  {
    if IsLocalSource(source) {
      if StartsWith(source, "./") { assert source[0] == '.'; }
      else { assert source[0] == '.'; }
      assert !StartsWith(source, "terraform-") by { assert source[0] != "terraform-"[0]; }
      assert !StartsWith(source, "registry.terraform.io") by { assert source[0] != "registry.terraform.io"[0]; }
    }
  }

  function DependencyOf(directory: string, source: string): (d: ModuleDependency)
    ensures d.targetModule == source && d.sourceModule == directory && d.variablesPassed == []
  {
    ModuleDependency(directory, source, DependencyKind(source), [])
  }

  /** One dependency per module source, in order. */
  function DependenciesOf(directory: string, sources: seq<string>): (r: seq<ModuleDependency>)
    ensures |r| == |sources|
    ensures forall i :: 0 <= i < |sources| ==> r[i] == DependencyOf(directory, sources[i])
  {
    if |sources| == 0 then []
    else DependenciesOf(directory, sources[..|sources| - 1]) + [DependencyOf(directory, sources[|sources| - 1])]
  }

  function ControlIn(f: FileScan): nat { f.counts + f.forEaches }

  /** The class and score for `control` count/for_each matches, `vars` variables and `res` resources. */
  function Couple(control: nat, vars: nat, res: nat): (r: (CouplingType, nat))
  {
    if control > 10 || (res > 0 && vars > 5 * res) then (Control, 75)
    else if vars > MaxRecommendedVariables then (Stamp, 60)
    else if control > 5 then (Stamp, 50)
    else (Data, 30)
  }

  /** Control coupling wins over everything; Data only when no threshold is crossed; the score orders the classes. */
  lemma CoupleRules(control: nat, vars: nat, res: nat)
    ensures Couple(control, vars, res).0 == Control <==> control > 10 || (res > 0 && vars > 5 * res)
    ensures Couple(control, vars, res).0 == Data <==> control <= 5 && vars <= 20 && (res == 0 || vars <= 5 * res)
    ensures Couple(control, vars, res).0 == Stamp ==> Couple(control, vars, res).1 in {50, 60}
    ensures Couple(control, vars, res).0 == Stamp <==> 30 < Couple(control, vars, res).1 < 75
  {
  }

  /** `analyze_coupling`: count the conditional constructs, collect the module sources, classify each. */
  method AnalyzeCoupling(analysis: TerraformAnalysis, files: seq<FileScan>) returns (c: CouplingAnalysis)
    ensures c.dependencies == DependenciesOf(analysis.projectDirectory, AllSources(files))
    ensures (c.couplingType, c.score) == Couple(SumBy(files, ControlIn), |analysis.variables|, |analysis.resources|)
  {
    var control := 0;
    var sources: seq<string> := [];
    var i := 0;
    while i < |files|
      invariant 0 <= i <= |files|
      invariant control == SumBy(files[..i], ControlIn)
      invariant sources == AllSources(files[..i])
    {
      assert files[..i + 1][..i] == files[..i];
      SumByAppend(files[..i], [files[i]], ControlIn);
      assert files[..i + 1] == files[..i] + [files[i]];
      control := control + files[i].counts;
      control := control + files[i].forEaches;
      sources := sources + files[i].moduleSources;
      i := i + 1;
    }
    assert files[..i] == files;
    var deps: seq<ModuleDependency> := [];
    var j := 0;
    while j < |sources|
      invariant 0 <= j <= |sources|
      invariant deps == DependenciesOf(analysis.projectDirectory, sources[..j])
    {
      assert sources[..j + 1][..j] == sources[..j];
      deps := deps + [DependencyOf(analysis.projectDirectory, sources[j])];
      j := j + 1;
    }
    assert sources[..j] == sources;
    var kind := Couple(control, |analysis.variables|, |analysis.resources|);
    c := CouplingAnalysis(kind.0, kind.1, deps);
  }

  // ---------------------------------------------------------------------
  // detect_issues
  // ---------------------------------------------------------------------

  datatype IssueSeverity = Critical | Warning | Info

  datatype IssueCategory =
    | ExcessiveVariables | LogicalCohesion | DeepHierarchy | MissingDocumentation
    | PublicModuleRisk | ControlCoupling | NamingConvention

  datatype ModuleIssue = ModuleIssue(
    severity: IssueSeverity,
    category: IssueCategory,
    message: IssueMessage,
    file: Option<string>,
    line: Option<nat>)

  /** What an issue says; `IssueText` renders it as the analyser formats it. */
  datatype IssueMessage =
    | TooManyVariables(count: nat)
    | ManyVariables(count: nat)
    | ManyResourceTypes(count: nat)
    | DeepNesting(depth: nat)
    | Undescribed(undocumented: nat, total: nat, percent: nat)
    | PublicModule(target: string)
    | Conditionals(file: string, count: nat)
    | MainFileName
    | CohesionNote(explanation: string)

  function IssueText(m: IssueMessage): string {
    match m
    case TooManyVariables(n) =>
      "Critical: " + NatToString(n) + " variables exposed (threshold: 50). This indicates internal model exposure (\U{30e2}\U{30c7}\U{30eb}\U{7d50}\U{5408}). Consider reducing interface surface."
    case ManyVariables(n) =>
      "Warning: " + NatToString(n) + " variables exposed (recommended: <20). Review if all variables are necessary."
    case ManyResourceTypes(n) =>
      "Logical cohesion detected: " + NatToString(n) + " different resource types in one module. This '\U{307e}\U{3068}\U{3081}\U{3059}\U{304e}' pattern reduces maintainability. Consider splitting by function."
    case DeepNesting(d) =>
      "Deep module hierarchy: " + NatToString(d) + " levels (recommended: \U{2264}2). Deep nesting reduces visibility and makes debugging harder (\U{591a}\U{6bb5}\U{69cb}\U{6210})."
    case Undescribed(u, t, p) =>
      NatToString(u) + " of " + NatToString(t) + " variables lack descriptions (" + NatToString(p)
      + "% documented). Documentation is essential for whitebox usage."
    case PublicModule(target) =>
      "Public module detected: '" + target + "'. Public modules often have excessive variables and logical cohesion. Consider creating an organization-specific wrapper."
    case Conditionals(f, n) =>
      "High conditional complexity in '" + f + "': " + NatToString(n) + " count/for_each patterns. This may indicate control coupling (\U{5236}\U{5fa1}\U{7d50}\U{5408})."
    case MainFileName =>
      "Consider renaming 'main.tf' to reflect its actual purpose (e.g., 'vpc.tf', 'compute.tf'). 'main.tf' doesn't convey what resources it contains."
    case CohesionNote(e) => e
  }

  /** An issue about the module as a whole, tied to no file. */
  function ModuleWide(severity: IssueSeverity, category: IssueCategory, message: IssueMessage): ModuleIssue {
    ModuleIssue(severity, category, message, None, None)
  }

  /** Critical from 50 variables, a warning from 30, nothing below. */
  function VariableIssues(m: ModuleMetrics): (r: seq<ModuleIssue>)
    ensures |r| <= 1
  {
    if m.variableCount >= CriticalVariables then [ModuleWide(Critical, ExcessiveVariables, TooManyVariables(m.variableCount))]
    else if m.variableCount >= WarningVariables then [ModuleWide(Warning, ExcessiveVariables, ManyVariables(m.variableCount))]
    else []
  }

  function TypeIssues(m: ModuleMetrics): seq<ModuleIssue> {
    if m.resourceTypeCount > MaxResourceTypes then [ModuleWide(Warning, LogicalCohesion, ManyResourceTypes(m.resourceTypeCount))]
    else []
  }

  function DepthIssues(m: ModuleMetrics): seq<ModuleIssue> {
    if m.hierarchyDepth > MaxHierarchyDepth then [ModuleWide(Warning, DeepHierarchy, DeepNesting(m.hierarchyDepth))]
    else []
  }

  /** The documented share is below 0.8: `documented / total < 0.8` in integers. */
  predicate UnderDocumented(m: ModuleMetrics)
    requires m.variablesWithoutDescription <= m.variableCount
  {
    m.variableCount > 0 && 5 * (m.variableCount - m.variablesWithoutDescription) < 4 * m.variableCount
  }

  function DocIssues(m: ModuleMetrics): seq<ModuleIssue>
    requires m.variablesWithoutDescription <= m.variableCount
  {
    if UnderDocumented(m) then
      var documented := m.variableCount - m.variablesWithoutDescription;
      [ModuleWide(Info, MissingDocumentation,
        Undescribed(m.variablesWithoutDescription, m.variableCount, RoundedPercent(documented, m.variableCount)))]
    else []
  }

  function PublicIssue(d: ModuleDependency): Option<ModuleIssue> {
    if d.dependencyType == PublicRegistry then Some(ModuleWide(Warning, PublicModuleRisk, PublicModule(d.targetModule)))
    else None
  }

  function ControlIssue(f: FileScan): Option<ModuleIssue> {
    if ControlIn(f) > 5 then Some(ModuleIssue(Info, ControlCoupling, Conditionals(f.name, ControlIn(f)), Some(f.name), None))
    else None
  }

  function NamingIssue(f: FileScan): Option<ModuleIssue> {
    if f.name == "main.tf" then Some(ModuleIssue(Info, NamingConvention, MainFileName, Some(f.name), None))
    else None
  }

  /** A file named main.tf is flagged only when the module has more than five resources. */
  function NamingIssues(files: seq<FileScan>, resourceCount: nat): seq<ModuleIssue> {
    if resourceCount > 5 then FilterMap(files, NamingIssue) else []
  }

  function CohesionIssues(c: CohesionAnalysis): seq<ModuleIssue> {
    if c.score < 50 then [ModuleWide(Warning, LogicalCohesion, CohesionNote(c.explanation))] else []
  }

  /** The checks on the module as a whole, in order. */
  function ModuleChecks(m: ModuleMetrics): seq<ModuleIssue>
    requires m.variablesWithoutDescription <= m.variableCount
  {
    VariableIssues(m) + TypeIssues(m) + DepthIssues(m) + DocIssues(m)
  }

  /** The checks per dependency and per file, in order. */
  function ItemChecks(k: CouplingAnalysis, files: seq<FileScan>, resourceCount: nat): seq<ModuleIssue> {
    FilterMap(k.dependencies, PublicIssue) + FilterMap(files, ControlIssue) + NamingIssues(files, resourceCount)
  }

  /** Every issue, in the order the checks run. */
  function IssuesOf(m: ModuleMetrics, c: CohesionAnalysis, k: CouplingAnalysis, files: seq<FileScan>): seq<ModuleIssue>
    requires m.variablesWithoutDescription <= m.variableCount
  {
    ModuleChecks(m) + ItemChecks(k, files, m.resourceCount) + CohesionIssues(c)
  }

  /** `detect_issues`: the checks in order, each pushing what it finds. */
  method DetectIssues(m: ModuleMetrics, c: CohesionAnalysis, k: CouplingAnalysis, files: seq<FileScan>)
    returns (issues: seq<ModuleIssue>)
    requires m.variablesWithoutDescription <= m.variableCount
    ensures issues == IssuesOf(m, c, k, files)
  {
    issues := VariableIssues(m) + TypeIssues(m) + DepthIssues(m) + DocIssues(m);
    ghost var start := issues;
    issues := CheckDependencies(issues, k.dependencies);
    issues := CheckConditionals(issues, files);
    issues := CheckFileNames(issues, files, m.resourceCount);
    assert issues == start + ItemChecks(k, files, m.resourceCount);
    issues := issues + CohesionIssues(c);
  }

  /** One PublicModuleRisk warning per public-registry dependency. */
  method CheckDependencies(before: seq<ModuleIssue>, deps: seq<ModuleDependency>) returns (issues: seq<ModuleIssue>)
    ensures issues == before + FilterMap(deps, PublicIssue)
  {
    issues := before;
    var i := 0;
    while i < |deps|
      invariant 0 <= i <= |deps|
      invariant issues == before + FilterMap(deps[..i], PublicIssue)
    {
      assert deps[..i + 1][..i] == deps[..i];
      if deps[i].dependencyType == PublicRegistry {
        issues := issues + [PublicIssue(deps[i]).value];
      }
      i := i + 1;
    }
    assert deps[..i] == deps;
  }

  /** One ControlCoupling note per file with more than five count/for_each matches. */
  method CheckConditionals(before: seq<ModuleIssue>, files: seq<FileScan>) returns (issues: seq<ModuleIssue>)
    ensures issues == before + FilterMap(files, ControlIssue)
  {
    issues := before;
    var i := 0;
    while i < |files|
      invariant 0 <= i <= |files|
      invariant issues == before + FilterMap(files[..i], ControlIssue)
    {
      assert files[..i + 1][..i] == files[..i];
      if files[i].counts + files[i].forEaches > 5 {
        issues := issues + [ControlIssue(files[i]).value];
      }
      i := i + 1;
    }
    assert files[..i] == files;
  }

  /** One NamingConvention note per file named main.tf, when there are more than five resources. */
  method CheckFileNames(before: seq<ModuleIssue>, files: seq<FileScan>, resourceCount: nat) returns (issues: seq<ModuleIssue>)
    ensures issues == before + NamingIssues(files, resourceCount)
  {
    issues := before;
    var i := 0;
    while i < |files|
      invariant 0 <= i <= |files|
      invariant issues == before + NamingIssues(files[..i], resourceCount)
    {
      assert files[..i + 1][..i] == files[..i];
      if files[i].name == "main.tf" && resourceCount > 5 {
        issues := issues + [NamingIssue(files[i]).value];
      }
      i := i + 1;
    }
    assert files[..i] == files;
  }

  /** The issues of one category, in order. */
  function Having(issues: seq<ModuleIssue>, category: IssueCategory): (r: seq<ModuleIssue>)
    ensures |r| <= |issues|
    ensures forall i :: 0 <= i < |r| ==> r[i].category == category
  {
    if |issues| == 0 then []
    else Having(issues[..|issues| - 1], category)
         + (if issues[|issues| - 1].category == category then [issues[|issues| - 1]] else [])
  }

  lemma {:induction false} HavingAppend(a: seq<ModuleIssue>, b: seq<ModuleIssue>, category: IssueCategory)
    ensures Having(a + b, category) == Having(a, category) + Having(b, category)
    decreases |b|
  {
    if |b| == 0 {
      assert a + b == a;
    } else {
      assert (a + b)[..|a + b| - 1] == a + b[..|b| - 1];
      HavingAppend(a, b[..|b| - 1], category);
    }
  }

  /** All of one category: filtering keeps all of them for that category and none for another. */
  lemma {:induction false} HavingUniform(s: seq<ModuleIssue>, c: IssueCategory, other: IssueCategory)
    requires forall i :: 0 <= i < |s| ==> s[i].category == c
    ensures Having(s, c) == s
    ensures other != c ==> Having(s, other) == []
  {
    if |s| > 0 {
      HavingUniform(s[..|s| - 1], c, other);
    }
  }

  /** Each public-registry dependency raises one PublicModuleRisk warning naming it, and nothing else does. */
  lemma {:induction false} PublicIssuesOnePerDependency(deps: seq<ModuleDependency>)
    ensures var r := FilterMap(deps, PublicIssue);
      (forall i :: 0 <= i < |r| ==> r[i].category == PublicModuleRisk && r[i].severity == Warning)
      && |r| == |FilterMap(deps, PublicTarget)|
  {
    if |deps| > 0 {
      PublicIssuesOnePerDependency(deps[..|deps| - 1]);
    }
  }

  function PublicTarget(d: ModuleDependency): Option<string> {
    if d.dependencyType == PublicRegistry then Some(d.targetModule) else None
  }

  lemma {:induction false} ControlIssuesUniform(files: seq<FileScan>)
    ensures forall i :: 0 <= i < |FilterMap(files, ControlIssue)| ==> FilterMap(files, ControlIssue)[i].category == ControlCoupling
  {
    if |files| > 0 {
      ControlIssuesUniform(files[..|files| - 1]);
    }
  }

  lemma {:induction false} NamingIssuesUniform(files: seq<FileScan>)
    ensures forall i :: 0 <= i < |FilterMap(files, NamingIssue)| ==> FilterMap(files, NamingIssue)[i].category == NamingConvention
  {
    if |files| > 0 {
      NamingIssuesUniform(files[..|files| - 1]);
    }
  }

  /** Filtering the issue list by category filters each group of checks. */
  lemma HavingIssues(m: ModuleMetrics, c: CohesionAnalysis, k: CouplingAnalysis, files: seq<FileScan>, cat: IssueCategory)
    requires m.variablesWithoutDescription <= m.variableCount
    ensures Having(IssuesOf(m, c, k, files), cat) ==
      Having(VariableIssues(m), cat) + Having(TypeIssues(m), cat) + Having(DepthIssues(m), cat) + Having(DocIssues(m), cat)
      + Having(ItemChecks(k, files, m.resourceCount), cat) + Having(CohesionIssues(c), cat)
  {
    var a1, a2, a3, a4 := VariableIssues(m), TypeIssues(m), DepthIssues(m), DocIssues(m);
    var b, e := ItemChecks(k, files, m.resourceCount), CohesionIssues(c);
    HavingAppend(a1, a2, cat);
    HavingAppend(a1 + a2, a3, cat);
    HavingAppend(a1 + a2 + a3, a4, cat);
    HavingAppend(ModuleChecks(m), b, cat);
    HavingAppend(ModuleChecks(m) + b, e, cat);
  }

  /** At most one issue, of category `own`: filtering keeps it exactly for `own`. */
  lemma HavingSingle(s: seq<ModuleIssue>, own: IssueCategory, cat: IssueCategory)
    requires |s| <= 1 && (s != [] ==> s[0].category == own)
    ensures Having(s, cat) == if cat == own then s else []
  {
    if s != [] {
      assert s[..0] == [];
    }
  }

  /** Each check on the module as a whole raises issues of its own category only. */
  lemma HavingModuleWide(m: ModuleMetrics, cat: IssueCategory)
    requires m.variablesWithoutDescription <= m.variableCount
    ensures Having(VariableIssues(m), cat) == if cat == ExcessiveVariables then VariableIssues(m) else []
    ensures Having(TypeIssues(m), cat) == if cat == LogicalCohesion then TypeIssues(m) else []
    ensures Having(DepthIssues(m), cat) == if cat == DeepHierarchy then DepthIssues(m) else []
    ensures Having(DocIssues(m), cat) == if cat == MissingDocumentation then DocIssues(m) else []
  {
    HavingVariables(m, cat);
    HavingTypes(m, cat);
    HavingDepth(m, cat);
    HavingDoc(m, cat);
  }

  lemma HavingVariables(m: ModuleMetrics, cat: IssueCategory)
    ensures Having(VariableIssues(m), cat) == if cat == ExcessiveVariables then VariableIssues(m) else []
  {
    HavingSingle(VariableIssues(m), ExcessiveVariables, cat);
  }

  lemma HavingTypes(m: ModuleMetrics, cat: IssueCategory)
    ensures Having(TypeIssues(m), cat) == if cat == LogicalCohesion then TypeIssues(m) else []
  {
    HavingSingle(TypeIssues(m), LogicalCohesion, cat);
  }

  lemma HavingDepth(m: ModuleMetrics, cat: IssueCategory)
    ensures Having(DepthIssues(m), cat) == if cat == DeepHierarchy then DepthIssues(m) else []
  {
    HavingSingle(DepthIssues(m), DeepHierarchy, cat);
  }

  lemma HavingDoc(m: ModuleMetrics, cat: IssueCategory)
    requires m.variablesWithoutDescription <= m.variableCount
    ensures Having(DocIssues(m), cat) == if cat == MissingDocumentation then DocIssues(m) else []
  {
    HavingSingle(DocIssues(m), MissingDocumentation, cat);
  }

  lemma HavingCohesion(c: CohesionAnalysis, cat: IssueCategory)
    ensures Having(CohesionIssues(c), cat) == if cat == LogicalCohesion then CohesionIssues(c) else []
  {
    HavingSingle(CohesionIssues(c), LogicalCohesion, cat);
  }

  /** The per-item checks raise nothing of a category they never produce. */
  lemma ItemChecksSilent(k: CouplingAnalysis, files: seq<FileScan>, resourceCount: nat, cat: IssueCategory)
    requires cat != PublicModuleRisk && cat != ControlCoupling && cat != NamingConvention
    ensures Having(ItemChecks(k, files, resourceCount), cat) == []
  {
    var b1, b2, b3 := FilterMap(k.dependencies, PublicIssue), FilterMap(files, ControlIssue), NamingIssues(files, resourceCount);
    PublicIssuesOnePerDependency(k.dependencies);
    HavingUniform(b1, PublicModuleRisk, cat);
    ControlIssuesUniform(files);
    HavingUniform(b2, ControlCoupling, cat);
    NamingIssuesUniform(files);
    if resourceCount > 5 {
      HavingUniform(b3, NamingConvention, cat);
    }
    HavingAppend(b1, b2, cat);
    HavingAppend(b1 + b2, b3, cat);
  }

  /** ExcessiveVariables: Critical at 50 or more, Warning from 30 to 49, absent below 30. */
  lemma ExcessiveVariablesRule(m: ModuleMetrics, c: CohesionAnalysis, k: CouplingAnalysis, files: seq<FileScan>)
    requires m.variablesWithoutDescription <= m.variableCount
    ensures var r := Having(IssuesOf(m, c, k, files), ExcessiveVariables);
      (r == [] <==> m.variableCount < 30)
      && (|r| == 1 && r[0].severity == Critical <==> m.variableCount >= 50)
      && (|r| == 1 && r[0].severity == Warning <==> 30 <= m.variableCount < 50)
  {
    ExcessiveVariablesOnly(m, c, k, files);
  }

  /** The ExcessiveVariables issues are exactly those the variable check raises. */
  lemma ExcessiveVariablesOnly(m: ModuleMetrics, c: CohesionAnalysis, k: CouplingAnalysis, files: seq<FileScan>)
    requires m.variablesWithoutDescription <= m.variableCount
    ensures Having(IssuesOf(m, c, k, files), ExcessiveVariables) == VariableIssues(m)
  {
    HavingIssues(m, c, k, files, ExcessiveVariables);
    ItemChecksSilent(k, files, m.resourceCount, ExcessiveVariables);
    HavingModuleWide(m, ExcessiveVariables);
    HavingCohesion(c, ExcessiveVariables);
  }

  /** DeepHierarchy is raised, once, exactly when the depth exceeds 2. */
  lemma DeepHierarchyRule(m: ModuleMetrics, c: CohesionAnalysis, k: CouplingAnalysis, files: seq<FileScan>)
    requires m.variablesWithoutDescription <= m.variableCount
    ensures var r := Having(IssuesOf(m, c, k, files), DeepHierarchy);
      |r| == (if m.hierarchyDepth > 2 then 1 else 0)
  {
    DeepHierarchyOnly(m, c, k, files);
  }

  lemma DeepHierarchyOnly(m: ModuleMetrics, c: CohesionAnalysis, k: CouplingAnalysis, files: seq<FileScan>)
    requires m.variablesWithoutDescription <= m.variableCount
    ensures Having(IssuesOf(m, c, k, files), DeepHierarchy) == DepthIssues(m)
  {
    HavingIssues(m, c, k, files, DeepHierarchy);
    ItemChecksSilent(k, files, m.resourceCount, DeepHierarchy);
    HavingModuleWide(m, DeepHierarchy);
    HavingCohesion(c, DeepHierarchy);
  }

  /** MissingDocumentation is raised, once, exactly when there are variables and under 80% carry a description. */
  lemma MissingDocumentationRule(m: ModuleMetrics, c: CohesionAnalysis, k: CouplingAnalysis, files: seq<FileScan>)
    requires m.variablesWithoutDescription <= m.variableCount
    ensures var r := Having(IssuesOf(m, c, k, files), MissingDocumentation);
      |r| == (if m.variableCount > 0 && 5 * (m.variableCount - m.variablesWithoutDescription) < 4 * m.variableCount then 1 else 0)
      && (r != [] ==> r[0].severity == Info)
  {
    MissingDocumentationOnly(m, c, k, files);
  }

  lemma MissingDocumentationOnly(m: ModuleMetrics, c: CohesionAnalysis, k: CouplingAnalysis, files: seq<FileScan>)
    requires m.variablesWithoutDescription <= m.variableCount
    ensures Having(IssuesOf(m, c, k, files), MissingDocumentation) == DocIssues(m)
  {
    HavingIssues(m, c, k, files, MissingDocumentation);
    ItemChecksSilent(k, files, m.resourceCount, MissingDocumentation);
    HavingModuleWide(m, MissingDocumentation);
    HavingCohesion(c, MissingDocumentation);
  }

  /** LogicalCohesion comes from more than five resource types and, separately, from a cohesion score under 50. */
  lemma LogicalCohesionRule(m: ModuleMetrics, c: CohesionAnalysis, k: CouplingAnalysis, files: seq<FileScan>)
    requires m.variablesWithoutDescription <= m.variableCount
    ensures var r := Having(IssuesOf(m, c, k, files), LogicalCohesion);
      |r| == (if m.resourceTypeCount > 5 then 1 else 0) + (if c.score < 50 then 1 else 0)
      && (c.score < 50 ==> r[|r| - 1] == ModuleWide(Warning, LogicalCohesion, CohesionNote(c.explanation)))
  {
    LogicalCohesionOnly(m, c, k, files);
  }

  lemma LogicalCohesionOnly(m: ModuleMetrics, c: CohesionAnalysis, k: CouplingAnalysis, files: seq<FileScan>)
    requires m.variablesWithoutDescription <= m.variableCount
    ensures Having(IssuesOf(m, c, k, files), LogicalCohesion) == TypeIssues(m) + CohesionIssues(c)
  {
    HavingIssues(m, c, k, files, LogicalCohesion);
    ItemChecksSilent(k, files, m.resourceCount, LogicalCohesion);
    HavingModuleWide(m, LogicalCohesion);
    HavingCohesion(c, LogicalCohesion);
    var none: seq<ModuleIssue> := [];
    assert none + TypeIssues(m) + none + none + none == TypeIssues(m);
  }

  /** One PublicModuleRisk warning per public-registry dependency, in dependency order. */
  lemma PublicModuleRiskRule(m: ModuleMetrics, c: CohesionAnalysis, k: CouplingAnalysis, files: seq<FileScan>)
    requires m.variablesWithoutDescription <= m.variableCount
    ensures Having(IssuesOf(m, c, k, files), PublicModuleRisk) == FilterMap(k.dependencies, PublicIssue)
    ensures |Having(IssuesOf(m, c, k, files), PublicModuleRisk)| == |FilterMap(k.dependencies, PublicTarget)|
  {
    HavingIssues(m, c, k, files, PublicModuleRisk);
    PublicItems(k, files, m.resourceCount);
    PublicIssuesOnePerDependency(k.dependencies);
    HavingModuleWide(m, PublicModuleRisk);
    HavingCohesion(c, PublicModuleRisk);
  }

  /** Among the per-item checks, the PublicModuleRisk ones are the dependency checks. */
  lemma PublicItems(k: CouplingAnalysis, files: seq<FileScan>, resourceCount: nat)
    ensures Having(ItemChecks(k, files, resourceCount), PublicModuleRisk) == FilterMap(k.dependencies, PublicIssue)
  {
    var b1, b2, b3 := FilterMap(k.dependencies, PublicIssue), FilterMap(files, ControlIssue), NamingIssues(files, resourceCount);
    PublicIssuesOnePerDependency(k.dependencies);
    HavingUniform(b1, PublicModuleRisk, PublicModuleRisk);
    ControlIssuesUniform(files);
    HavingUniform(b2, ControlCoupling, PublicModuleRisk);
    NamingIssuesUniform(files);
    if resourceCount > 5 {
      HavingUniform(b3, NamingConvention, PublicModuleRisk);
    }
    HavingAppend(b1, b2, PublicModuleRisk);
    HavingAppend(b1 + b2, b3, PublicModuleRisk);
  }


  // ---------------------------------------------------------------------
  // generate_recommendations
  // ---------------------------------------------------------------------

  /** A recommendation; `AdviceText` renders it as the analyser formats it. */
  datatype Advice =
    | ReduceVariables
    | SplitByFunction(categories: seq<string>)
    | DescribeVariables(count: nat)
    | FlattenModules
    | WrapPublicModules
    | LooksHealthy

  function AdviceText(a: Advice): string {
    match a
    case ReduceVariables =>
      "\U{1F527} Reduce variable exposure: Group related variables into objects, use locals for derived values, and set sensible defaults. Target: \U{2264}20 variables."
    case SplitByFunction(cs) =>
      "\U{1F527} Split module by function: Current categories (" + Join(cs, ", ") + "). Create separate modules for each distinct function."
    case DescribeVariables(n) =>
      "\U{1F4DD} Add descriptions to " + NatToString(n) + " variables. Use terraform-docs to generate documentation automatically."
    case FlattenModules =>
      "\U{1F3D7}\U{FE0F} Flatten module hierarchy: Prefer composition over deep nesting. Consider using module composition patterns instead of deep hierarchies."
    case WrapPublicModules =>
      "\U{26A0}\U{FE0F} Create organization wrappers for public modules: Public modules expose too many options. Create thin wrappers that expose only the options your organization needs."
    case LooksHealthy =>
      "\U{2705} Module structure looks healthy! Continue following current patterns."
  }

  /** `generate_recommendations`: one recommendation per condition that holds, in a fixed order. */
  function RecommendationsOf(issues: seq<ModuleIssue>, m: ModuleMetrics, c: CohesionAnalysis): seq<Advice> {
    (if m.variableCount > MaxRecommendedVariables then [ReduceVariables] else [])
    + (if |c.resourceTypeGroups| > 3 then [SplitByFunction(GroupNames(c.resourceTypeGroups))] else [])
    + (if m.variablesWithoutDescription > 0 then [DescribeVariables(m.variablesWithoutDescription)] else [])
    + (if m.hierarchyDepth > MaxHierarchyDepth then [FlattenModules] else [])
    + (if |Having(issues, PublicModuleRisk)| > 0 then [WrapPublicModules] else [])
    + (if |issues| == 0 then [LooksHealthy] else [])
  }

  /** At most one recommendation per condition. */
  lemma RecommendationCount(issues: seq<ModuleIssue>, m: ModuleMetrics, c: CohesionAnalysis)
    ensures |RecommendationsOf(issues, m, c)| <= 6
  {
  }

  /** The "healthy" line appears exactly when no issue was found. */
  lemma HealthyIffNoIssues(issues: seq<ModuleIssue>, m: ModuleMetrics, c: CohesionAnalysis)
    ensures LooksHealthy in RecommendationsOf(issues, m, c) <==> |issues| == 0
  {
  }

  /** Wrapping is advised exactly when a public module was flagged. */
  lemma WrapIffPublicModule(issues: seq<ModuleIssue>, m: ModuleMetrics, c: CohesionAnalysis)
    ensures WrapPublicModules in RecommendationsOf(issues, m, c)
            <==> exists i :: 0 <= i < |issues| && issues[i].category == PublicModuleRisk
  {
    HavingCounts(issues, PublicModuleRisk);
  }

  /** Reducing variables is advised above 20 of them, flattening above depth 2. */
  lemma VariableAndDepthAdvice(issues: seq<ModuleIssue>, m: ModuleMetrics, c: CohesionAnalysis)
    ensures ReduceVariables in RecommendationsOf(issues, m, c) <==> m.variableCount > 20
    ensures FlattenModules in RecommendationsOf(issues, m, c) <==> m.hierarchyDepth > 2
  {
  }

  /** Splitting is advised for more than three categories, naming them; descriptions whenever one is missing, with the count. */
  lemma SplitAndDescribeAdvice(issues: seq<ModuleIssue>, m: ModuleMetrics, c: CohesionAnalysis)
    ensures (exists cs :: SplitByFunction(cs) in RecommendationsOf(issues, m, c)) <==> |c.resourceTypeGroups| > 3
    ensures |c.resourceTypeGroups| > 3 ==> SplitByFunction(GroupNames(c.resourceTypeGroups)) in RecommendationsOf(issues, m, c)
    ensures (exists n :: DescribeVariables(n) in RecommendationsOf(issues, m, c)) <==> m.variablesWithoutDescription > 0
    ensures m.variablesWithoutDescription > 0
            ==> DescribeVariables(m.variablesWithoutDescription) in RecommendationsOf(issues, m, c)
  {
  }

  /** The filter for a category is empty exactly when no issue has that category. */
  lemma {:induction false} HavingCounts(issues: seq<ModuleIssue>, category: IssueCategory)
    ensures |Having(issues, category)| > 0 <==> exists i :: 0 <= i < |issues| && issues[i].category == category
  {
    if |issues| > 0 {
      var init := issues[..|issues| - 1];
      HavingCounts(init, category);
      if exists i :: 0 <= i < |init| && init[i].category == category {
        var i :| 0 <= i < |init| && init[i].category == category;
        assert issues[i] == init[i];
      }
      if exists i :: 0 <= i < |issues| && issues[i].category == category {
        var i :| 0 <= i < |issues| && issues[i].category == category;
        if i < |init| { assert init[i] == issues[i]; }
      }
    }
  }

  // ---------------------------------------------------------------------
  // calculate_health_score
  // ---------------------------------------------------------------------

  /** 30, 15 or 5 points for more than 50, 30 or 20 variables: strict comparisons, unlike the issue thresholds. */
  function VariablePenalty(count: nat): nat {
    if count > CriticalVariables then 30
    else if count > WarningVariables then 15
    else if count > MaxRecommendedVariables then 5
    else 0
  }

  function SeverityPenalty(s: IssueSeverity): nat {
    match s
    case Critical => 15
    case Warning => 5
    case Info => 1
  }

  /** The points all issues cost together. */
  function IssuePenalty(issues: seq<ModuleIssue>): nat {
    if |issues| == 0 then 0
    else IssuePenalty(issues[..|issues| - 1]) + SeverityPenalty(issues[|issues| - 1].severity)
  }

  /** Integer division rounding toward zero, as Rust's `/` on `i32`. */
  function Quot(a: int, b: int): int
    requires b > 0
  {
    if a >= 0 then a / b else -((-a) / b)
  }

  function Min(a: int, b: int): int { if a <= b then a else b }

  /** The score before clamping: 100 less every deduction. */
  function RawScore(m: ModuleMetrics, c: CohesionAnalysis, k: CouplingAnalysis, issues: seq<ModuleIssue>): int {
    100 - VariablePenalty(m.variableCount)
    - Min(Quot(100 - c.score, 3), 25)
    - Min(Quot(k.score, 4), 20)
    - IssuePenalty(issues)
    - (if m.hierarchyDepth > MaxHierarchyDepth then 10 else 0)
  }

  /** `clamp(0, 100)`. */
  function Clamp(x: int): (r: nat)
    ensures r <= 100
    ensures 0 <= x <= 100 ==> r == x
    ensures x < 0 ==> r == 0
    ensures x > 100 ==> r == 100
  {
    if x < 0 then 0 else if x > 100 then 100 else x
  }

  function HealthScoreOf(m: ModuleMetrics, c: CohesionAnalysis, k: CouplingAnalysis, issues: seq<ModuleIssue>): nat {
    Clamp(RawScore(m, c, k, issues))
  }

  /** `calculate_health_score`: start at 100, deduct, clamp. */
  method CalculateHealthScore(m: ModuleMetrics, c: CohesionAnalysis, k: CouplingAnalysis, issues: seq<ModuleIssue>)
    returns (score: nat)
    ensures score == HealthScoreOf(m, c, k, issues)
    ensures score <= 100
  {
    var s: int := 100;
    if m.variableCount > CriticalVariables {
      s := s - 30;
    } else if m.variableCount > WarningVariables {
      s := s - 15;
    } else if m.variableCount > MaxRecommendedVariables {
      s := s - 5;
    }
    s := s - Min(Quot(100 - c.score, 3), 25);
    s := s - Min(Quot(k.score, 4), 20);
    ghost var before := s;
    assert before == 100 - VariablePenalty(m.variableCount) - Min(Quot(100 - c.score, 3), 25) - Min(Quot(k.score, 4), 20);
    var i := 0;
    while i < |issues|
      invariant 0 <= i <= |issues|
      invariant s == before - IssuePenalty(issues[..i])
    {
      assert issues[..i + 1][..i] == issues[..i];
      match issues[i].severity {
        case Critical => s := s - 15;
        case Warning => s := s - 5;
        case Info => s := s - 1;
      }
      assert s == before - IssuePenalty(issues[..i + 1]);
      i := i + 1;
    }
    assert issues[..i] == issues;
    if m.hierarchyDepth > MaxHierarchyDepth {
      s := s - 10;
    }
    assert s == RawScore(m, c, k, issues);
    score := Clamp(s);
  }

  lemma {:induction false} IssuePenaltyAppend(a: seq<ModuleIssue>, b: seq<ModuleIssue>)
    ensures IssuePenalty(a + b) == IssuePenalty(a) + IssuePenalty(b)
    decreases |b|
  {
    if |b| == 0 {
      assert a + b == a;
    } else {
      assert (a + b)[..|a + b| - 1] == a + b[..|b| - 1];
      IssuePenaltyAppend(a, b[..|b| - 1]);
    }
  }

  /** Further issues never raise the score, and each costs at least one point until the floor. */
  lemma MoreIssuesLowerScore(m: ModuleMetrics, c: CohesionAnalysis, k: CouplingAnalysis, issues: seq<ModuleIssue>, more: seq<ModuleIssue>)
    ensures HealthScoreOf(m, c, k, issues + more) <= HealthScoreOf(m, c, k, issues)
    ensures RawScore(m, c, k, issues + more) <= RawScore(m, c, k, issues) - |more|
  {
    IssuePenaltyAppend(issues, more);
    IssuePenaltyAtLeast(more);
  }

  lemma {:induction false} IssuePenaltyAtLeast(issues: seq<ModuleIssue>)
    ensures IssuePenalty(issues) >= |issues|
  {
    if |issues| > 0 {
      IssuePenaltyAtLeast(issues[..|issues| - 1]);
    }
  }

  /**
   * The score deducts with strict comparisons while detection raises
   * issues from the threshold on: at exactly 50 variables the issue is
   * Critical but the deduction is that of more than 30.
   */
  lemma ThresholdsDisagree(m: ModuleMetrics)
    requires m.variableCount == 50
    ensures VariableIssues(m)[0].severity == Critical && VariablePenalty(m.variableCount) == 15
  {
  }

  // ---------------------------------------------------------------------
  // analyze_module_health
  // ---------------------------------------------------------------------

  datatype ModuleHealthAnalysis = ModuleHealthAnalysis(
    modulePath: string,
    metrics: ModuleMetrics,
    healthScore: nat,
    issues: seq<ModuleIssue>,
    recommendations: seq<Advice>,
    cohesionAnalysis: CohesionAnalysis,
    couplingAnalysis: CouplingAnalysis)

  /** `analyze_module_health`: metrics, cohesion and coupling, then issues, recommendations and the score from them. */
  method AnalyzeModuleHealth(analysis: TerraformAnalysis, files: seq<FileScan>) returns (h: ModuleHealthAnalysis)
    ensures h.modulePath == analysis.projectDirectory
    ensures h.metrics == MetricsOf(analysis, files)
    ensures h.cohesionAnalysis == Judge(GroupsOf(analysis.resources, Category), |analysis.resources|)
    ensures h.couplingAnalysis.dependencies == DependenciesOf(analysis.projectDirectory, AllSources(files))
    ensures (h.couplingAnalysis.couplingType, h.couplingAnalysis.score)
            == Couple(SumBy(files, ControlIn), |analysis.variables|, |analysis.resources|)
    ensures h.metrics.variablesWithoutDescription <= h.metrics.variableCount
    ensures h.issues == IssuesOf(h.metrics, h.cohesionAnalysis, h.couplingAnalysis, files)
    ensures h.recommendations == RecommendationsOf(h.issues, h.metrics, h.cohesionAnalysis)
    ensures h.healthScore == HealthScoreOf(h.metrics, h.cohesionAnalysis, h.couplingAnalysis, h.issues)
    ensures h.healthScore <= 100
  {
    var metrics := CalculateMetrics(analysis, files);
    var cohesion := AnalyzeCohesion(analysis);
    var coupling := AnalyzeCoupling(analysis, files);
    var issues := DetectIssues(metrics, cohesion, coupling, files);
    var recommendations := RecommendationsOf(issues, metrics, cohesion);
    var score := CalculateHealthScore(metrics, cohesion, coupling, issues);
    h := ModuleHealthAnalysis(analysis.projectDirectory, metrics, score, issues, recommendations, cohesion, coupling);
  }
}
