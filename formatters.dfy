/**
 * The structured summaries built by `OutputFormatter`
 * (src/formatters/output.rs).  Each JSON object the source builds with
 * `json!` is a record here, one field per key the logic fills in; the
 * static description texts are left as they are in the source and not
 * repeated.
 */
module Formatters {
  import opened Wrappers
  import opened Strs
  import opened RegistryTypes
  import Cache

  /** `"{namespace}/{name}"`: the id every view gives a provider. */
  function ProviderId(namespace: string, name: string): string {
    Joined(namespace, '/', name)
  }

  /** The id gives back namespace and name when the namespace has no '/'. */
  lemma ProviderIdInjective(ns1: string, n1: string, ns2: string, n2: string)
    requires '/' !in ns1 && '/' !in ns2
    requires ProviderId(ns1, n1) == ProviderId(ns2, n2)
    ensures ns1 == ns2 && n1 == n2
  {
    if |ns1| != |ns2| {
      assert false;
    }
  }

  const RegistryProviders: string := "https://registry.terraform.io/providers/"

  /** One entry of `format_provider_list`. */
  datatype ProviderEntry = ProviderEntry(
    id: string, name: string, namespace: string, version: string,
    description: string, downloads: nat, publishedAt: string, registryUrl: string)

  datatype ProviderList = ProviderList(totalProviders: nat, providers: seq<ProviderEntry>)

  function EntryOf(p: ProviderInfo): (e: ProviderEntry)
    ensures e.id == ProviderId(p.namespace, p.name)
    ensures e.name == p.name && e.namespace == p.namespace && e.version == p.version
    ensures e.downloads == p.downloads
    ensures e.registryUrl == RegistryProviders + ProviderId(p.namespace, p.name)
  {
    ProviderEntry(ProviderId(p.namespace, p.name), p.name, p.namespace, p.version,
                  p.description, p.downloads, p.publishedAt,
                  RegistryProviders + p.namespace + "/" + p.name)
  }

  /** `format_provider_list`: the count is the input length and the entries follow input order. */
  function FormatProviderList(providers: seq<ProviderInfo>): (r: ProviderList)
    ensures r.totalProviders == |providers| == |r.providers|
    ensures forall i :: 0 <= i < |providers| ==>
      r.providers[i].id == ProviderId(providers[i].namespace, providers[i].name)
      && r.providers[i].name == providers[i].name
  {
    ProviderList(|providers|, seq(|providers|, i requires 0 <= i < |providers| => EntryOf(providers[i])))
  }

  datatype VersionsView = VersionsView(available: seq<string>, latest: string, count: nat)

  datatype DocEntry = DocEntry(id: string, title: string, category: string, description: string)

  datatype DocsView = DocsView(availableDocs: seq<DocEntry>, docCount: nat)

  datatype ProviderDetails = ProviderDetails(
    provider: ProviderEntry,
    versions: Option<VersionsView>,
    documentation: Option<DocsView>,
    configExample: string)

  function DocEntryOf(d: DocIdResult): DocEntry {
    DocEntry(d.id, d.title, d.category, d.description)
  }

  /** The `required_providers` block suggested for a provider. */
  function ConfigExample(p: ProviderInfo): string {
    "terraform {\n  required_providers {\n    " + p.name + " = {\n      source  = \""
    + p.namespace + "/" + p.name + "\"\n      version = \"~> " + p.version + "\"\n    }\n  }\n}"
  }

  /**
   * `format_provider_details`: a versions section iff versions were given,
   * whose latest is the first listed version or else the provider's own;
   * a documentation section iff docs were given.
   */
  function FormatProviderDetails(p: ProviderInfo, versions: Option<seq<string>>, docs: Option<seq<DocIdResult>>)
    : (r: ProviderDetails)
    ensures r.provider == EntryOf(p)
    ensures r.versions.Some? <==> versions.Some?
    ensures versions.Some? ==>
      r.versions.value.available == versions.value
      && r.versions.value.count == |versions.value|
      && r.versions.value.latest == (if |versions.value| > 0 then versions.value[0] else p.version)
    ensures r.documentation.Some? <==> docs.Some?
    ensures docs.Some? ==>
      r.documentation.value.docCount == |docs.value| == |r.documentation.value.availableDocs|
      && forall i :: 0 <= i < |docs.value| ==> r.documentation.value.availableDocs[i].id == docs.value[i].id
  {
    var vs := match versions
      case None => None
      case Some(v) => Some(VersionsView(v, if |v| > 0 then v[0] else p.version, |v|));
    var ds := match docs
      case None => None
      case Some(d) => Some(DocsView(seq(|d|, i requires 0 <= i < |d| => DocEntryOf(d[i])), |d|));
    ProviderDetails(EntryOf(p), vs, ds, ConfigExample(p))
  }

  datatype DocLink = DocLink(id: string, title: string, category: string, description: string, url: string)

  datatype DocumentationResults = DocumentationResults(provider: string, totalDocs: nat, documentation: seq<DocLink>)

  /** The documentation page of a doc id under a provider name. */
  function DocUrl(providerName: string, id: string): string {
    RegistryProviders + providerName + "/latest/docs/" + id
  }

  /** `format_documentation_results`: one link per doc, in order, ending in its id. */
  function FormatDocumentationResults(docs: seq<DocIdResult>, providerName: string): (r: DocumentationResults)
    ensures r.provider == providerName && r.totalDocs == |docs| == |r.documentation|
    ensures forall i :: 0 <= i < |docs| ==>
      r.documentation[i].id == docs[i].id && EndsWith(r.documentation[i].url, docs[i].id)
  {
    var links := seq(|docs|, i requires 0 <= i < |docs| =>
      DocLink(docs[i].id, docs[i].title, docs[i].category, docs[i].description, DocUrl(providerName, docs[i].id)));
    assert forall i :: 0 <= i < |docs| ==> EndsWith(DocUrl(providerName, docs[i].id), docs[i].id) by {
      forall i | 0 <= i < |docs| ensures EndsWith(DocUrl(providerName, docs[i].id), docs[i].id) {
        var pre := RegistryProviders + providerName + "/latest/docs/";
        assert (pre + docs[i].id)[|pre + docs[i].id| - |docs[i].id|..] == docs[i].id;
      }
    }
    DocumentationResults(providerName, |docs|, links)
  }

  datatype SimilarProvider = SimilarProvider(id: string, name: string, namespace: string, description: string)

  datatype ErrorView = ErrorView(
    message: string,
    errorType: string,
    suggestions: Option<seq<string>>,
    similarProviders: Option<seq<SimilarProvider>>)

  function SimilarOf(p: ProviderInfo): SimilarProvider {
    SimilarProvider(ProviderId(p.namespace, p.name), p.name, p.namespace, p.description)
  }

  /**
   * `format_error_with_suggestions`: the suggestions are passed through and
   * at most the first five hinted providers are listed, in order.
   */
  function FormatErrorWithSuggestions(error: string, suggestions: Option<seq<string>>, hints: Option<seq<ProviderInfo>>)
    : (r: ErrorView)
    ensures r.message == error && r.errorType == "provider_resolution_error"
    ensures r.suggestions == suggestions
    ensures r.similarProviders.Some? <==> hints.Some?
    ensures hints.Some? ==>
      |r.similarProviders.value| == (if |hints.value| < 5 then |hints.value| else 5)
      && forall i :: 0 <= i < |r.similarProviders.value| ==> r.similarProviders.value[i] == SimilarOf(hints.value[i])
  {
    var similar := match hints
      case None => None
      case Some(ps) =>
        var n := if |ps| < 5 then |ps| else 5;
        Some(seq(n, i requires 0 <= i < n => SimilarOf(ps[i])));
    ErrorView(error, "provider_resolution_error", suggestions, similar)
  }

  datatype ValidationView = ValidationView(
    status: string,
    errorCount: nat,
    warningCount: nat,
    suggestionCount: nat,
    errors: seq<string>,
    warnings: seq<string>,
    suggestions: seq<string>,
    nextSteps: seq<string>)

  /** `format_validation_results`. */
  function FormatValidationResults(valid: bool, errors: seq<string>, warnings: seq<string>, suggestions: seq<string>)
    : (r: ValidationView)
    ensures r.status == "valid" <==> valid
    ensures r.status == "invalid" <==> !valid
    ensures r.errorCount == |errors| && r.warningCount == |warnings| && r.suggestionCount == |suggestions|
    ensures r.errors == errors && r.warnings == warnings && r.suggestions == suggestions
    ensures |r.nextSteps| == (if valid then 1 else 3)
  {
    var status := if valid then "valid" else "invalid";
    assert "valid" != "invalid" by { assert "valid"[0] != "invalid"[0]; }
    var next := if valid then ["Configuration is valid and ready to use"]
      else ["Fix the errors listed above", "Review warnings for best practices", "Consider implementing the suggestions"];
    ValidationView(status, |errors|, |warnings|, |suggestions|, errors, warnings, suggestions, next)
  }

  // ----- buckets -----

  datatype Popularity = Low | Moderate | High | VeryHigh

  /** `calculate_popularity_score`, on the download count. */
  function PopularityScore(downloads: nat): (r: Popularity)
    ensures r == Low <==> downloads <= 1000
    ensures r == Moderate <==> 1000 < downloads <= 10000
    ensures r == High <==> 10000 < downloads <= 100000
    ensures r == VeryHigh <==> 100000 < downloads
  {
    if downloads <= 1000 then Low
    else if downloads <= 10000 then Moderate
    else if downloads <= 100000 then High
    else VeryHigh
  }

  function PopularityName(p: Popularity): string {
    match p
    case Low => "low"
    case Moderate => "moderate"
    case High => "high"
    case VeryHigh => "very_high"
  }

  function PopularityRank(p: Popularity): nat {
    match p
    case Low => 0
    case Moderate => 1
    case High => 2
    case VeryHigh => 3
  }

  /** More downloads never give a lower bucket. */
  lemma PopularityMonotone(a: nat, b: nat)
    requires a <= b
    ensures PopularityRank(PopularityScore(a)) <= PopularityRank(PopularityScore(b))
  {
  }

  /** The buckets of the source's test values. */
  lemma PopularitySamples()
    ensures PopularityScore(500) == Low && PopularityScore(5000) == Moderate
    ensures PopularityScore(50000) == High && PopularityScore(500000) == VeryHigh
  {
  }

  datatype Maturity = Early | Developing | Mature | Established

  /** `assess_maturity`, on the number of versions. */
  function AssessMaturity(versionCount: nat): (r: Maturity)
    ensures r == Early <==> versionCount <= 5
    ensures r == Developing <==> 5 < versionCount <= 20
    ensures r == Mature <==> 20 < versionCount <= 50
    ensures r == Established <==> 50 < versionCount
  {
    if versionCount <= 5 then Early
    else if versionCount <= 20 then Developing
    else if versionCount <= 50 then Mature
    else Established
  }

  function MaturityName(m: Maturity): string {
    match m
    case Early => "early"
    case Developing => "developing"
    case Mature => "mature"
    case Established => "established"
  }

  function MaturityRank(m: Maturity): nat {
    match m
    case Early => 0
    case Developing => 1
    case Mature => 2
    case Established => 3
  }

  /** More versions never give a lower maturity. */
  lemma MaturityMonotone(a: nat, b: nat)
    requires a <= b
    ensures MaturityRank(AssessMaturity(a)) <= MaturityRank(AssessMaturity(b))
  {
  }

  // ----- comparison -----

  /**
   * `Iterator::max_by_key`: the index of the maximum key, the LAST one
   * when several are equal.
   */
  function {:induction false} LastMaxIndex(keys: seq<nat>): (r: nat)
    requires |keys| > 0
    ensures r < |keys|
    ensures forall j :: 0 <= j < |keys| ==> keys[j] <= keys[r]
    ensures forall j :: r < j < |keys| ==> keys[j] < keys[r]
  {
    if |keys| == 1 then 0
    else
      var m := LastMaxIndex(keys[..|keys| - 1]);
      if keys[|keys| - 1] >= keys[m] then |keys| - 1 else m
  }

  datatype Recommendation = Recommendation(kind: string, provider: string, reason: string)

  function Downloads(providers: seq<(ProviderInfo, seq<string>)>): (r: seq<nat>)
    ensures |r| == |providers|
    ensures forall i :: 0 <= i < |providers| ==> r[i] == providers[i].0.downloads
  {
    seq(|providers|, i requires 0 <= i < |providers| => providers[i].0.downloads)
  }

  function VersionCounts(providers: seq<(ProviderInfo, seq<string>)>): (r: seq<nat>)
    ensures |r| == |providers|
    ensures forall i :: 0 <= i < |providers| ==> r[i] == |providers[i].1|
  {
    seq(|providers|, i requires 0 <= i < |providers| => |providers[i].1|)
  }

  /**
   * `generate_provider_recommendations`: nothing for no providers, else the
   * most downloaded and the one with the most versions, in that order.
   */
  function ProviderRecommendations(providers: seq<(ProviderInfo, seq<string>)>): (r: seq<Recommendation>)
    ensures |providers| == 0 ==> r == []
    ensures |providers| > 0 ==>
      |r| == 2 && r[0].kind == "most_popular" && r[1].kind == "most_mature"
      && (exists i :: 0 <= i < |providers| && r[0].provider == ProviderId(providers[i].0.namespace, providers[i].0.name)
            && forall j :: 0 <= j < |providers| ==> providers[j].0.downloads <= providers[i].0.downloads)
      && (exists i :: 0 <= i < |providers| && r[1].provider == ProviderId(providers[i].0.namespace, providers[i].0.name)
            && forall j :: 0 <= j < |providers| ==> |providers[j].1| <= |providers[i].1|)
    ensures |providers| > 0 ==>
      var p := LastMaxIndex(Downloads(providers));
      var m := LastMaxIndex(VersionCounts(providers));
      && r[0].provider == ProviderId(providers[p].0.namespace, providers[p].0.name)
      && r[1].provider == ProviderId(providers[m].0.namespace, providers[m].0.name)
  {
    if |providers| == 0 then []
    else
      var p := LastMaxIndex(Downloads(providers));
      var m := LastMaxIndex(VersionCounts(providers));
      assert Downloads(providers)[p] == providers[p].0.downloads;
      assert VersionCounts(providers)[m] == |providers[m].1|;
      var best := providers[p].0;
      var mature := providers[m].0;
      [Recommendation("most_popular", ProviderId(best.namespace, best.name),
                      "Highest download count indicates strong community adoption"),
       Recommendation("most_mature", ProviderId(mature.namespace, mature.name),
                      "Has " + NatToString(|providers[m].1|) + " versions, indicating active development")]
  }

  datatype ComparisonEntry = ComparisonEntry(
    id: string, name: string, namespace: string, currentVersion: string, description: string,
    downloads: nat, versionCount: nat, latestVersions: seq<string>,
    popularity: Popularity, maturity: Maturity)

  datatype Comparison = Comparison(totalProviders: nat, providers: seq<ComparisonEntry>, recommendations: seq<Recommendation>)

  /** One provider of the comparison: at most the first three versions, and its two buckets. */
  function ComparisonOf(p: ProviderInfo, versions: seq<string>): (e: ComparisonEntry)
    ensures e.id == ProviderId(p.namespace, p.name) && e.downloads == p.downloads
    ensures e.versionCount == |versions|
    ensures |e.latestVersions| <= 3 && e.latestVersions <= versions
    ensures |versions| >= 3 ==> |e.latestVersions| == 3
    ensures e.popularity == PopularityScore(p.downloads) && e.maturity == AssessMaturity(|versions|)
  {
    ComparisonEntry(ProviderId(p.namespace, p.name), p.name, p.namespace, p.version, p.description,
                    p.downloads, |versions|, if |versions| <= 3 then versions else versions[..3],
                    PopularityScore(p.downloads), AssessMaturity(|versions|))
  }

  /** `format_provider_comparison`: one entry per provider, with at most three latest versions. */
  function FormatProviderComparison(providers: seq<(ProviderInfo, seq<string>)>): (r: Comparison)
    ensures r.totalProviders == |providers| == |r.providers|
    ensures forall i :: 0 <= i < |providers| ==> r.providers[i] == ComparisonOf(providers[i].0, providers[i].1)
    ensures r.recommendations == ProviderRecommendations(providers)
  {
    Comparison(|providers|,
               seq(|providers|, i requires 0 <= i < |providers| => ComparisonOf(providers[i].0, providers[i].1)),
               ProviderRecommendations(providers))
  }

  datatype CacheView = CacheView(totalEntries: nat, validEntries: nat, expiredEntries: nat)

  datatype CacheStatsView = CacheStatsView(totalCaches: nat, caches: map<string, CacheView>)

  /** `format_cache_stats` without the hit rates: one view per named cache, counts copied. */
  function FormatCacheStats(stats: map<string, Cache.CacheStats>): (r: CacheStatsView)
    ensures r.totalCaches == |stats| && r.caches.Keys == stats.Keys
    ensures forall k :: k in stats ==>
      r.caches[k].totalEntries == stats[k].totalEntries
      && r.caches[k].validEntries == stats[k].validEntries
      && r.caches[k].expiredEntries == stats[k].expiredEntries
  {
    CacheStatsView(|stats|, map k | k in stats :: CacheView(stats[k].totalEntries, stats[k].validEntries, stats[k].expiredEntries))
  }
}
