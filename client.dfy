/**
 * How the Terraform Registry client (src/registry/client.rs) reads the
 * registry's answers.  The network is an input: `fetch(request)` is the
 * reply to one GET request, either a transport failure or a status code
 * with its body text.  Parsing the text as JSON (`serde_json::from_str`)
 * and deserialising a JSON value into a typed record
 * (`serde_json::from_value`) are inputs too; each yields a value or serde's
 * error message.  What is modelled is everything the client decides from
 * those answers: which status codes become which error, which fallback
 * extraction runs when the typed record does not deserialise, which
 * version is "the latest", and the order in which the documentation
 * endpoints are tried.
 */
module Client {
  import opened Wrappers
  import opened Json
  import opened Strs
  import opened RegistryTypes
  import Batch

  const BaseUrl := "https://registry.terraform.io"

  /** One GET request: a URL and its query parameters. */
  datatype Request = Request(url: string, query: seq<(string, string)>)

  /**
   * What the network gives back for a request.  `Failed` is a reqwest
   * error from sending the request or reading its body; the client turns
   * it into `HttpError` with `?`.
   */
  datatype Response = Failed(message: string) | Reply(status: nat, text: string)

  /** `StatusCode::is_success`. */
  predicate IsSuccess(status: nat) {
    200 <= status <= 299
  }

  /** `HttpError(format!("HTTP {}", status))`; the reason phrase after the code is left out. */
  function StatusError(status: nat): RegistryError {
    HttpError("HTTP " + NatToString(status))
  }

  function InvalidJson(e: string): RegistryError {
    JsonError("Invalid JSON response: " + e)
  }

  // ---------------------------------------------------------------------
  // Status classification
  // ---------------------------------------------------------------------

  /** The status checks of `get_provider_info` and `get_latest_version`. */
  function ProviderStatus(status: nat, provider: string, namespace: string): (r: Option<RegistryError>)
    ensures r.None? <==> IsSuccess(status)
    ensures r == Some(ProviderNotFound(provider, namespace)) <==> status == 404
    ensures r == Some(RateLimited) <==> status == 429
    ensures r.Some? && status != 404 && status != 429 ==> r.value.HttpError?
  {
    if status == 404 then Some(ProviderNotFound(provider, namespace))
    else if status == 429 then Some(RateLimited)
    else if !IsSuccess(status) then Some(StatusError(status))
    else None
  }

  /** The status checks of `get_module_details` and `get_module_versions`. */
  function ModuleStatus(status: nat, name: string, provider: string, namespace: string): (r: Option<RegistryError>)
    ensures r.None? <==> IsSuccess(status)
    ensures r == Some(ModuleNotFound(name, provider, namespace)) <==> status == 404
    ensures r == Some(RateLimited) <==> status == 429
    ensures r.Some? && status != 404 && status != 429 ==> r.value.HttpError?
  {
    if status == 404 then Some(ModuleNotFound(name, provider, namespace))
    else if status == 429 then Some(RateLimited)
    else if !IsSuccess(status) then Some(StatusError(status))
    else None
  }

  /**
   * The status checks of `search_providers` and `search_modules`: there is
   * no 404 case, so a 404 is an `HttpError` like any other failure code.
   */
  function SearchStatus(status: nat): (r: Option<RegistryError>)
    ensures r.None? <==> IsSuccess(status)
    ensures r == Some(RateLimited) <==> status == 429
    ensures r.Some? && status != 429 ==> r.value.HttpError?
    ensures r.Some? ==> !r.value.ProviderNotFound? && !r.value.ModuleNotFound?
  {
    if status == 429 then Some(RateLimited)
    else if !IsSuccess(status) then Some(StatusError(status))
    else None
  }

  // ---------------------------------------------------------------------
  // Reading JSON members
  // ---------------------------------------------------------------------

  /** `value.get(key).and_then(|v| v.as_array())`. */
  function GetArr(j: Json, key: string): (r: Option<seq<Json>>)
    ensures r.Some? <==> Get(j, key).Some? && Get(j, key).value.Arr?
  {
    match Get(j, key)
    case Some(Arr(items)) => Some(items)
    case _ => None
  }

  /** `value.get(key).and_then(|v| v.as_u64())`. */
  function GetU64(j: Json, key: string): (r: Option<nat>)
    ensures r.Some? ==> r.value < 0x1_0000_0000_0000_0000
  {
    match Get(j, key)
    case Some(Number(n)) => if 0 <= n < 0x1_0000_0000_0000_0000 then Some(n as nat) else None
    case _ => None
  }

  /** `value.get(key).and_then(|v| v.as_str()).unwrap_or(default)`. */
  function StrOr(j: Json, key: string, default: string): (r: string)
    ensures GetStr(j, key).Some? ==> r == GetStr(j, key).value
    ensures GetStr(j, key).None? ==> r == default
  {
    match GetStr(j, key)
    case Some(s) => s
    case None => default
  }

  function U64Or0(j: Json, key: string): nat {
    match GetU64(j, key)
    case Some(n) => n
    case None => 0
  }

  // ---------------------------------------------------------------------
  // extract_*_from_array
  // ---------------------------------------------------------------------

  /**
   * One entry of `extract_providers_from_array`: a string `name` is
   * required; the other fields keep `ProviderInfo::default()` unless the
   * entry carries them.
   */
  function ProviderEntry(j: Json): (r: Option<ProviderInfo>)
    ensures r.Some? <==> GetStr(j, "name").Some?
    ensures r.Some? ==> r.value.name == GetStr(j, "name").value
    ensures r.Some? ==> r.value.id == "" && r.value.publishedAt == ""
  {
    match GetStr(j, "name")
    case None => None
    case Some(name) =>
      Some(ProviderInfo(name, StrOr(j, "namespace", ""), StrOr(j, "version", ""),
                        StrOr(j, "description", ""), U64Or0(j, "downloads"), "", ""))
  }

  function ExtractProviders(items: seq<Json>): seq<ProviderInfo> {
    FilterMap(items, ProviderEntry)
  }

  /** The providers extracted are those of the entries with a string name, and nothing else. */
  lemma ExtractProvidersSpec(items: seq<Json>, p: ProviderInfo)
    ensures p in ExtractProviders(items) <==> exists i :: 0 <= i < |items| && ProviderEntry(items[i]) == Some(p)
    ensures ExtractProviders(items) == [] <==> forall i :: 0 <= i < |items| ==> GetStr(items[i], "name").None?
  {
    FilterMapMembers(items, ProviderEntry, p);
    FilterMapEmpty(items, ProviderEntry);
  }

  /**
   * One entry of `extract_docs_from_array`: missing strings read as empty,
   * and the entry is kept iff its id or its title is non-empty.
   */
  function DocEntry(j: Json): (r: Option<DocIdResult>)
    ensures r.Some? <==> StrOr(j, "id", "") != "" || StrOr(j, "title", "") != ""
    ensures r.Some? ==> r.value.id == StrOr(j, "id", "") && r.value.title == StrOr(j, "title", "")
  {
    var doc := DocIdResult(StrOr(j, "id", ""), StrOr(j, "title", ""),
                           StrOr(j, "description", ""), StrOr(j, "category", ""));
    if doc.id != "" || doc.title != "" then Some(doc) else None
  }

  function ExtractDocs(items: seq<Json>): seq<DocIdResult> {
    FilterMap(items, DocEntry)
  }

  /** Every extracted document has an id or a title; nothing survives iff no entry has either. */
  lemma ExtractDocsSpec(items: seq<Json>, d: DocIdResult)
    ensures d in ExtractDocs(items) ==> d.id != "" || d.title != ""
    ensures ExtractDocs(items) == [] <==>
      forall i :: 0 <= i < |items| ==> StrOr(items[i], "id", "") == "" && StrOr(items[i], "title", "") == ""
  {
    FilterMapMembers(items, DocEntry, d);
    FilterMapEmpty(items, DocEntry);
  }

  /** One entry of `extract_modules_from_array`: kept iff its id is a non-empty string. */
  function ModuleEntry(j: Json): (r: Option<ModuleInfo>)
    ensures r.Some? <==> StrOr(j, "id", "") != ""
    ensures r.Some? ==> r.value.id == StrOr(j, "id", "")
  {
    var id := StrOr(j, "id", "");
    if id == "" then None
    else Some(ModuleInfo(id, StrOr(j, "namespace", ""), StrOr(j, "name", ""), StrOr(j, "provider", ""),
                         StrOr(j, "version", ""), StrOr(j, "description", ""), U64Or0(j, "downloads")))
  }

  function ExtractModules(items: seq<Json>): seq<ModuleInfo> {
    FilterMap(items, ModuleEntry)
  }

  /** Every extracted module has a non-empty id; nothing survives iff every id is missing or empty. */
  lemma ExtractModulesSpec(items: seq<Json>, m: ModuleInfo)
    ensures m in ExtractModules(items) ==> m.id != ""
    ensures ExtractModules(items) == [] <==> forall i :: 0 <= i < |items| ==> StrOr(items[i], "id", "") == ""
  {
    FilterMapMembers(items, ModuleEntry, m);
    FilterMapEmpty(items, ModuleEntry);
  }

  // ---------------------------------------------------------------------
  // Single-request endpoints
  // ---------------------------------------------------------------------

  /** The part of `RegistrySearchResponse` the client reads. */
  datatype SearchResponse = SearchResponse(providers: seq<ProviderInfo>, data: Option<seq<ProviderInfo>>)

  /** `search_providers`, from the reply on. */
  function SearchProvidersResult(resp: Response, query: string, parse: string -> Result<Json, string>,
                                 decode: Json -> Result<SearchResponse, string>)
    : (r: Result<seq<ProviderInfo>, RegistryError>)
    ensures r.Ok? ==> |r.value| > 0 && resp.Reply? && IsSuccess(resp.status) && parse(resp.text).Ok?
    ensures resp.Reply? && !IsSuccess(resp.status) ==> r == Err(SearchStatus(resp.status).value)
    ensures resp.Reply? && IsSuccess(resp.status) && parse(resp.text).Ok? && decode(parse(resp.text).value).Ok? ==>
      var d := decode(parse(resp.text).value).value;
      (|d.providers| > 0 ==> r == Ok(d.providers))
      && (|d.providers| == 0 && d.data.Some? && |d.data.value| > 0 ==> r == Ok(d.data.value))
      && (|d.providers| == 0 && (d.data.None? || d.data.value == []) ==> r == Err(NoSearchResults(query)))
  {
    match resp
    case Failed(m) => Err(HttpError(m))
    case Reply(status, text) =>
      if SearchStatus(status).Some? then Err(SearchStatus(status).value)
      else match parse(text)
        case Err(e) => Err(InvalidJson(e))
        case Ok(j) =>
          match decode(j)
          case Ok(d) =>
            var providers := if |d.providers| == 0 && d.data.Some? then d.data.value else d.providers;
            if |providers| == 0 then Err(NoSearchResults(query)) else Ok(providers)
          case Err(e) =>
            var extracted := match GetArr(j, "providers") case Some(a) => ExtractProviders(a) case None => [];
            if |extracted| > 0 then Ok(extracted)
            else Err(JsonError("Failed to parse search response: " + e))
  }

  /**
   * `get_provider_info`, from the reply on.  Once the body is JSON a record
   * always comes back: when it does not deserialise, the name and the
   * namespace fall back to the ones asked for.
   */
  function ProviderInfoResult(resp: Response, provider: string, namespace: string,
                              parse: string -> Result<Json, string>, decode: Json -> Result<ProviderInfo, string>)
    : (r: Result<ProviderInfo, RegistryError>)
    ensures resp.Reply? ==> (r == Err(ProviderNotFound(provider, namespace)) <==> resp.status == 404)
    ensures resp.Reply? ==> (r == Err(RateLimited) <==> resp.status == 429)
    ensures r.Ok? <==> resp.Reply? && IsSuccess(resp.status) && parse(resp.text).Ok?
    ensures r.Ok? && decode(parse(resp.text).value).Err? ==>
      var j := parse(resp.text).value;
      (GetStr(j, "name").None? ==> r.value.name == provider)
      && (GetStr(j, "namespace").None? ==> r.value.namespace == namespace)
  {
    match resp
    case Failed(m) => Err(HttpError(m))
    case Reply(status, text) =>
      if ProviderStatus(status, provider, namespace).Some? then Err(ProviderStatus(status, provider, namespace).value)
      else match parse(text)
        case Err(e) => Err(InvalidJson(e))
        case Ok(j) =>
          match decode(j)
          case Ok(info) => Ok(info)
          case Err(_) =>
            Ok(ProviderInfo(StrOr(j, "name", provider), StrOr(j, "namespace", namespace), "",
                            StrOr(j, "description", ""), U64Or0(j, "downloads"), "", ""))
  }

  /** `ProviderVersions`: the version list and the `data` records' version strings. */
  datatype ProviderVersions = ProviderVersions(versions: seq<string>, data: Option<seq<string>>)

  function NonEmptyVersion(v: string): Option<string> {
    if v == "" then None else Some(v)
  }

  /**
   * The selection in `get_latest_version`: an empty version list is
   * refilled from `data`'s non-empty versions, an empty list after that is
   * `NoVersionsAvailable`, and otherwise the first entry is the latest.
   */
  function SelectLatestVersion(pv: ProviderVersions, provider: string, namespace: string)
    : (r: Result<string, RegistryError>)
    ensures |pv.versions| > 0 ==> r == Ok(pv.versions[0])
    ensures r.Err? ==> r.error == NoVersionsAvailable(provider, namespace)
  {
    var versions := if |pv.versions| == 0 && pv.data.Some? then FilterMap(pv.data.value, NonEmptyVersion)
                    else pv.versions;
    if |versions| == 0 then Err(NoVersionsAvailable(provider, namespace)) else Ok(versions[0])
  }

  /**
   * With an empty version list the answer comes from `data`: the first
   * non-empty version in it, and `NoVersionsAvailable` iff there is none.
   */
  lemma SelectLatestFromData(pv: ProviderVersions, provider: string, namespace: string)
    requires pv.versions == []
    ensures SelectLatestVersion(pv, provider, namespace).Err? <==>
      pv.data.None? || forall i :: 0 <= i < |pv.data.value| ==> pv.data.value[i] == ""
    ensures SelectLatestVersion(pv, provider, namespace).Ok? ==>
      var v := SelectLatestVersion(pv, provider, namespace).value;
      v != "" && exists k :: 0 <= k < |pv.data.value| && pv.data.value[k] == v
                             && forall j :: 0 <= j < k ==> pv.data.value[j] == ""
  {
    if pv.data.Some? {
      var data := pv.data.value;
      FilterMapEmpty(data, NonEmptyVersion);
      if FilterMap(data, NonEmptyVersion) != [] {
        FilterMapFirst(data, NonEmptyVersion);
      }
    }
  }

  /** `get_latest_version`, from the reply on. */
  function LatestVersionResult(resp: Response, provider: string, namespace: string,
                               parse: string -> Result<Json, string>, decode: Json -> Result<ProviderVersions, string>)
    : (r: Result<string, RegistryError>)
    ensures resp.Reply? ==> (r == Err(ProviderNotFound(provider, namespace)) <==> resp.status == 404)
    ensures resp.Reply? ==> (r == Err(RateLimited) <==> resp.status == 429)
    ensures r.Ok? ==> resp.Reply? && IsSuccess(resp.status) && parse(resp.text).Ok?
    ensures r.Ok? && decode(parse(resp.text).value).Ok? ==>
      r == SelectLatestVersion(decode(parse(resp.text).value).value, provider, namespace)
    ensures r.Ok? && decode(parse(resp.text).value).Err? ==>
      var a := GetArr(parse(resp.text).value, "versions");
      a.Some? && |a.value| > 0 && a.value[0] == Str(r.value)
  {
    match resp
    case Failed(m) => Err(HttpError(m))
    case Reply(status, text) =>
      if ProviderStatus(status, provider, namespace).Some? then Err(ProviderStatus(status, provider, namespace).value)
      else match parse(text)
        case Err(e) => Err(InvalidJson(e))
        case Ok(j) =>
          match decode(j)
          case Ok(pv) => SelectLatestVersion(pv, provider, namespace)
          case Err(e) =>
            match GetArr(j, "versions")
            case Some(a) =>
              if |a| > 0 && a[0].Str? then Ok(a[0].s)
              else Err(JsonError("Failed to parse versions: " + e))
            case None => Err(JsonError("Failed to parse versions: " + e))
  }

  /** `search_modules`, from the reply on. */
  function SearchModulesResult(resp: Response, query: string, parse: string -> Result<Json, string>,
                               decode: Json -> Result<seq<ModuleInfo>, string>)
    : (r: Result<seq<ModuleInfo>, RegistryError>)
    ensures r.Ok? ==> |r.value| > 0 && resp.Reply? && IsSuccess(resp.status) && parse(resp.text).Ok?
    ensures resp.Reply? && !IsSuccess(resp.status) ==> r == Err(SearchStatus(resp.status).value)
    ensures resp.Reply? && IsSuccess(resp.status) && parse(resp.text).Ok? && decode(parse(resp.text).value).Ok? ==>
      (r == Err(NoSearchResults(query)) <==> decode(parse(resp.text).value).value == [])
    ensures r.Ok? && decode(parse(resp.text).value).Err? ==>
      forall m :: m in r.value ==> m.id != ""
  {
    match resp
    case Failed(m) => Err(HttpError(m))
    case Reply(status, text) =>
      if SearchStatus(status).Some? then Err(SearchStatus(status).value)
      else match parse(text)
        case Err(e) => Err(InvalidJson(e))
        case Ok(j) =>
          match decode(j)
          case Ok(modules) => if |modules| == 0 then Err(NoSearchResults(query)) else Ok(modules)
          case Err(e) =>
            match GetArr(j, "modules")
            case Some(a) =>
              var extracted := ExtractModules(a);
              ExtractModulesNonEmptyIds(a);
              if |extracted| > 0 then Ok(extracted)
              else Err(JsonError("Failed to parse module search response: " + e))
            case None => Err(JsonError("Failed to parse module search response: " + e))
  }

  lemma ExtractModulesNonEmptyIds(items: seq<Json>)
    ensures forall m :: m in ExtractModules(items) ==> m.id != ""
  {
    forall m | m in ExtractModules(items) {
      ExtractModulesSpec(items, m);
    }
  }

  /** `{base}/v1/modules/{namespace}/{name}/{provider}`. */
  function ModuleUrl(namespace: string, name: string, provider: string): string {
    BaseUrl + "/v1/modules/" + namespace + "/" + name + "/" + provider
  }

  /** The URL of `get_module_details`: the version is a last path segment iff one is given. */
  function ModuleDetailsUrl(namespace: string, name: string, provider: string, version: Option<string>): (r: string)
    ensures StartsWith(r, ModuleUrl(namespace, name, provider))
    ensures |r| > |ModuleUrl(namespace, name, provider)| <==> version.Some?
    ensures version.Some? ==> EndsWith(r, "/" + version.value)
  {
    match version
    case Some(v) => ModuleUrl(namespace, name, provider) + "/" + v
    case None => ModuleUrl(namespace, name, provider)
  }

  /** The part of `ModuleDetails` the client reads. */
  datatype ModuleDetails = ModuleDetails(
    id: string,
    namespace: string,
    name: string,
    provider: string,
    version: string,
    description: string,
    downloads: nat,
    verified: bool)

  /**
   * `get_module_details`, from the reply on.  As with providers, a JSON
   * body that does not deserialise still yields a record, with the
   * coordinates asked for filling the gaps.
   */
  function ModuleDetailsResult(resp: Response, namespace: string, name: string, provider: string,
                               parse: string -> Result<Json, string>, decode: Json -> Result<ModuleDetails, string>)
    : (r: Result<ModuleDetails, RegistryError>)
    ensures resp.Reply? ==> (r == Err(ModuleNotFound(name, provider, namespace)) <==> resp.status == 404)
    ensures resp.Reply? ==> (r == Err(RateLimited) <==> resp.status == 429)
    ensures r.Ok? <==> resp.Reply? && IsSuccess(resp.status) && parse(resp.text).Ok?
    ensures r.Ok? && decode(parse(resp.text).value).Err? ==>
      var j := parse(resp.text).value;
      (GetStr(j, "namespace").None? ==> r.value.namespace == namespace)
      && (GetStr(j, "name").None? ==> r.value.name == name)
      && (GetStr(j, "provider").None? ==> r.value.provider == provider)
      && (GetStr(j, "version").None? ==> r.value.version == "")
  {
    match resp
    case Failed(m) => Err(HttpError(m))
    case Reply(status, text) =>
      if ModuleStatus(status, name, provider, namespace).Some? then Err(ModuleStatus(status, name, provider, namespace).value)
      else match parse(text)
        case Err(e) => Err(InvalidJson(e))
        case Ok(j) =>
          match decode(j)
          case Ok(details) => Ok(details)
          case Err(_) =>
            Ok(ModuleDetails(StrOr(j, "id", ""), StrOr(j, "namespace", namespace), StrOr(j, "name", name),
                             StrOr(j, "provider", provider), StrOr(j, "version", ""), StrOr(j, "description", ""),
                             U64Or0(j, "downloads"),
                             match GetBool(j, "verified") case Some(b) => b case None => false))
  }

  /** `ModuleVersionsResponse`: for each module, the version strings of its version records. */
  datatype ModuleVersionsResponse = ModuleVersionsResponse(modules: seq<seq<string>>)

  /** `namespace/name/provider`, the module named in `NoModuleVersionsAvailable`. */
  function ModulePath(namespace: string, name: string, provider: string): string {
    namespace + "/" + name + "/" + provider
  }

  function VersionsArray(m: Json): Option<seq<Json>> {
    GetArr(m, "versions")
  }

  function VersionString(v: Json): Option<string> {
    GetStr(v, "version")
  }

  /**
   * `get_module_versions`, from the reply on.  The typed path flattens the
   * modules' versions and drops empty strings; the manual path (when the
   * typed record does not deserialise) flattens the `versions` arrays and
   * keeps every string `version`, empty ones included.
   */
  function ModuleVersionsResult(resp: Response, namespace: string, name: string, provider: string,
                                parse: string -> Result<Json, string>,
                                decode: Json -> Result<ModuleVersionsResponse, string>)
    : (r: Result<seq<string>, RegistryError>)
    ensures resp.Reply? ==> (r == Err(ModuleNotFound(name, provider, namespace)) <==> resp.status == 404)
    ensures r.Ok? ==> |r.value| > 0 && resp.Reply? && IsSuccess(resp.status) && parse(resp.text).Ok?
    ensures r.Ok? && decode(parse(resp.text).value).Ok? ==> forall v :: v in r.value ==> v != ""
    ensures resp.Reply? && IsSuccess(resp.status) && parse(resp.text).Ok? && r.Err? ==>
      r.error == NoModuleVersionsAvailable(ModulePath(namespace, name, provider))
  {
    match resp
    case Failed(m) => Err(HttpError(m))
    case Reply(status, text) =>
      if ModuleStatus(status, name, provider, namespace).Some? then Err(ModuleStatus(status, name, provider, namespace).value)
      else match parse(text)
        case Err(e) => Err(InvalidJson(e))
        case Ok(j) =>
          match decode(j)
          case Ok(d) =>
            var versions := FilterMap(Batch.Flatten(d.modules), NonEmptyVersion);
            NonEmptyVersionsKept(Batch.Flatten(d.modules));
            if |versions| == 0 then Err(NoModuleVersionsAvailable(ModulePath(namespace, name, provider)))
            else Ok(versions)
          case Err(_) =>
            var versions := match GetArr(j, "modules")
                            case Some(ms) => FilterMap(Batch.Flatten(FilterMap(ms, VersionsArray)), VersionString)
                            case None => [];
            if |versions| > 0 then Ok(versions)
            else Err(NoModuleVersionsAvailable(ModulePath(namespace, name, provider)))
  }

  lemma NonEmptyVersionsKept(vs: seq<string>)
    ensures forall v :: v in FilterMap(vs, NonEmptyVersion) ==> v != ""
  {
    forall v | v in FilterMap(vs, NonEmptyVersion) {
      FilterMapMembers(vs, NonEmptyVersion, v);
    }
  }

  /**
   * `get_latest_module_version`: the details' version when it is
   * non-empty, otherwise the first listed version; an error from either
   * request is passed on.  `versions` is only consulted when the details
   * carry no version.
   */
  function LatestModuleVersion(details: Result<ModuleDetails, RegistryError>,
                               versions: Result<seq<string>, RegistryError>,
                               namespace: string, name: string, provider: string)
    : (r: Result<string, RegistryError>)
    ensures details.Err? ==> r == Err(details.error)
    ensures details.Ok? && details.value.version != "" ==> r == Ok(details.value.version)
    ensures details.Ok? && details.value.version == "" ==>
      (versions.Err? ==> r == Err(versions.error))
      && (versions.Ok? && |versions.value| > 0 ==> r == Ok(versions.value[0]))
      && (versions == Ok([]) ==> r == Err(NoModuleVersionsAvailable(ModulePath(namespace, name, provider))))
  {
    match details
    case Err(e) => Err(e)
    case Ok(d) =>
      if d.version != "" then Ok(d.version)
      else match versions
        case Err(e) => Err(e)
        case Ok(vs) =>
          if |vs| > 0 then Ok(vs[0]) else Err(NoModuleVersionsAvailable(ModulePath(namespace, name, provider)))
  }

  /**
   * Composed with the real requests, a latest module version that comes
   * back through the typed paths is never empty.
   */
  lemma LatestModuleVersionNonEmpty(detailsResp: Response, versionsResp: Response,
                                    namespace: string, name: string, provider: string,
                                    parse: string -> Result<Json, string>,
                                    decodeDetails: Json -> Result<ModuleDetails, string>,
                                    decodeVersions: Json -> Result<ModuleVersionsResponse, string>)
    requires versionsResp.Reply? && parse(versionsResp.text).Ok? && decodeVersions(parse(versionsResp.text).value).Ok?
    ensures var r := LatestModuleVersion(
              ModuleDetailsResult(detailsResp, namespace, name, provider, parse, decodeDetails),
              ModuleVersionsResult(versionsResp, namespace, name, provider, parse, decodeVersions),
              namespace, name, provider);
            r.Ok? ==> r.value != ""
  {
    var vr := ModuleVersionsResult(versionsResp, namespace, name, provider, parse, decodeVersions);
    if vr.Ok? {
      assert vr.value[0] in vr.value;
    }
  }

  // ---------------------------------------------------------------------
  // Multi-endpoint walks: search_docs and get_doc_content
  // ---------------------------------------------------------------------

  /** What one reply in a walk over endpoints decides: stop with a result, or try the next endpoint. */
  datatype Step<T> = Stop(result: Result<T, RegistryError>) | Next

  /** The first step that stops, in order; `Next` when every step moves on. */
  function FirstStop<T>(steps: seq<Step<T>>): Step<T> {
    if |steps| == 0 then Next
    else if steps[0].Stop? then steps[0]
    else FirstStop(steps[1..])
  }

  /** `FirstStop` moves on iff every step does, and otherwise is the first step that stops. */
  lemma {:induction false} FirstStopSpec<T>(steps: seq<Step<T>>)
    ensures FirstStop(steps).Next? <==> forall i :: 0 <= i < |steps| ==> steps[i].Next?
    ensures FirstStop(steps).Stop? ==>
      exists k :: 0 <= k < |steps| && steps[k] == FirstStop(steps) && forall j :: 0 <= j < k ==> steps[j].Next?
  {
    if |steps| > 0 && steps[0].Next? {
      var rest := steps[1..];
      FirstStopSpec(rest);
      assert forall i :: 0 < i < |steps| ==> steps[i] == rest[i - 1];
      if FirstStop(rest).Stop? {
        var k :| 0 <= k < |rest| && rest[k] == FirstStop(rest) && forall j :: 0 <= j < k ==> rest[j].Next?;
        assert steps[k + 1] == FirstStop(steps);
      }
    }
  }

  /** The position of the first step that stops. */
  lemma StopIndex<T>(steps: seq<Step<T>>) returns (k: nat)
    requires FirstStop(steps).Stop?
    ensures k < |steps| && steps[k] == FirstStop(steps) && forall j :: 0 <= j < k ==> steps[j].Next?
  {
    FirstStopSpec(steps);
    k :| 0 <= k < |steps| && steps[k] == FirstStop(steps) && forall j :: 0 <= j < k ==> steps[j].Next?;
  }

  /** A walk resumed after steps that all moved on ends as the whole walk does. */
  lemma {:induction false} FirstStopFrom<T>(steps: seq<Step<T>>, i: nat)
    requires i < |steps| && steps[i].Next?
    requires FirstStop(steps) == FirstStop(steps[i..])
    ensures FirstStop(steps) == FirstStop(steps[i + 1..])
  {
    assert steps[i..][1..] == steps[i + 1..];
  }

  /** The four documentation-search URL patterns, tried in this order. */
  function DocsUrls(namespace: string, provider: string): (r: seq<string>)
    ensures |r| == 4
  {
    [BaseUrl + "/v1/providers/" + namespace + "/" + provider + "/docs",
     BaseUrl + "/v2/providers/" + namespace + "/" + provider + "/docs",
     BaseUrl + "/providers/" + namespace + "/" + provider + "/docs",
     BaseUrl + "/docs/providers/" + namespace + "/" + provider]
  }

  /** The four query-parameter sets, tried in this order against each URL. */
  function DocsParams(dataType: string, slug: string): (r: seq<seq<(string, string)>>)
    ensures |r| == 4
  {
    [[("category", dataType), ("slug", slug)],
     [("type", dataType), ("slug", slug)],
     [("filter[category]", dataType), ("filter[slug]", slug)],
     [("q", slug), ("category", dataType)]]
  }

  /** The four documentation-content URL patterns, tried in this order. */
  function ContentUrls(docId: string): (r: seq<string>)
    ensures |r| == 4
  {
    [BaseUrl + "/v1/docs/" + docId,
     BaseUrl + "/v2/docs/" + docId,
     BaseUrl + "/docs/" + docId,
     BaseUrl + "/documentation/" + docId]
  }

  /** The part of `ProviderDocsResponse` the client reads. */
  datatype DocsResponse = DocsResponse(data: seq<DocIdResult>, docs: Option<seq<DocIdResult>>,
                                       documentation: Option<seq<DocIdResult>>)

  /**
   * The documents of a deserialised docs response: `data`, or when it is
   * empty `docs` if present, else `documentation` if present.  A present
   * but empty `docs` hides `documentation`.
   */
  function DocsOf(d: DocsResponse): (r: seq<DocIdResult>)
    ensures |d.data| > 0 ==> r == d.data
    ensures |d.data| == 0 && d.docs.Some? ==> r == d.docs.value
    ensures |d.data| == 0 && d.docs.None? && d.documentation.Some? ==> r == d.documentation.value
    ensures |r| > 0 ==> (r == d.data || (d.docs.Some? && r == d.docs.value)
                         || (d.documentation.Some? && r == d.documentation.value))
  {
    if |d.data| > 0 then d.data
    else if d.docs.Some? then d.docs.value
    else if d.documentation.Some? then d.documentation.value
    else d.data
  }

  /** Stop with a non-empty list, move on past an empty one. */
  function NonEmptyStop<T>(items: seq<T>): (r: Step<seq<T>>)
    ensures r.Stop? <==> |items| > 0
    ensures r.Stop? ==> r.result == Ok(items)
  {
    if |items| > 0 then Stop(Ok(items)) else Next
  }

  /**
   * The manual extraction when a docs body does not deserialise: the
   * `data` array, then the `docs` array, then the body itself as an array;
   * the first that yields any document wins.
   */
  function DocsFallback(j: Json): (r: Step<seq<DocIdResult>>)
    ensures r.Stop? ==> r.result.Ok? && |r.result.value| > 0
    ensures r.Stop? ==> (GetArr(j, "data").Some? && r.result.value == ExtractDocs(GetArr(j, "data").value))
                        || (GetArr(j, "docs").Some? && r.result.value == ExtractDocs(GetArr(j, "docs").value))
                        || (j.Arr? && r.result.value == ExtractDocs(j.items))
  {
    var fromData := match GetArr(j, "data") case Some(a) => ExtractDocs(a) case None => [];
    var fromDocs := match GetArr(j, "docs") case Some(a) => ExtractDocs(a) case None => [];
    var direct := if j.Arr? then ExtractDocs(j.items) else [];
    if |fromData| > 0 then Stop(Ok(fromData))
    else if |fromDocs| > 0 then Stop(Ok(fromDocs))
    else NonEmptyStop(direct)
  }

  /**
   * What `search_docs` does with one reply: a transport failure or a 429
   * ends the search with an error; a 404, any other failure code or a
   * body that is not JSON moves on; a body with documents ends it with
   * them; a body with none moves on.
   */
  function DocsStep(resp: Response, parse: string -> Result<Json, string>, decode: Json -> Result<DocsResponse, string>)
    : (r: Step<seq<DocIdResult>>)
    ensures (r.Stop? && r.result.Err?) <==> (resp.Failed? || resp.status == 429)
    ensures r.Stop? && r.result.Ok? ==> |r.result.value| > 0
    ensures resp.Reply? && resp.status == 429 ==> r == Stop(Err(RateLimited))
    ensures resp.Reply? && resp.status != 429 && !IsSuccess(resp.status) ==> r.Next?
    ensures resp.Reply? && IsSuccess(resp.status) && parse(resp.text).Err? ==> r.Next?
  {
    match resp
    case Failed(m) => Stop(Err(HttpError(m)))
    case Reply(status, text) =>
      if status == 429 then Stop(Err(RateLimited))
      else if !IsSuccess(status) then Next
      else match parse(text)
        case Err(_) => Next
        case Ok(j) =>
          match decode(j)
          case Ok(d) => NonEmptyStop(DocsOf(d))
          case Err(_) => DocsFallback(j)
  }

  /** The steps of one URL pattern, one per parameter set, in order. */
  function ParamSteps(url: string, params: seq<seq<(string, string)>>, fetch: Request -> Response,
                      parse: string -> Result<Json, string>, decode: Json -> Result<DocsResponse, string>)
    : (r: seq<Step<seq<DocIdResult>>>)
    ensures |r| == |params|
    ensures forall p :: 0 <= p < |params| ==> r[p] == DocsStep(fetch(Request(url, params[p])), parse, decode)
  {
    seq(|params|, p requires 0 <= p < |params| => DocsStep(fetch(Request(url, params[p])), parse, decode))
  }

  /** The outcome of each URL pattern: the first parameter set that stops there, if any. */
  function UrlSteps(urls: seq<string>, params: seq<seq<(string, string)>>, fetch: Request -> Response,
                    parse: string -> Result<Json, string>, decode: Json -> Result<DocsResponse, string>)
    : (r: seq<Step<seq<DocIdResult>>>)
    ensures |r| == |urls|
    ensures forall u :: 0 <= u < |urls| ==> r[u] == FirstStop(ParamSteps(urls[u], params, fetch, parse, decode))
  {
    seq(|urls|, u requires 0 <= u < |urls| => FirstStop(ParamSteps(urls[u], params, fetch, parse, decode)))
  }

  /**
   * What a documentation search over `urls` × `params` returns: the first
   * stopping reply, URL-major, or an empty list.
   */
  function DocsWalk(urls: seq<string>, params: seq<seq<(string, string)>>, fetch: Request -> Response,
                    parse: string -> Result<Json, string>, decode: Json -> Result<DocsResponse, string>)
    : Result<seq<DocIdResult>, RegistryError>
  {
    match FirstStop(UrlSteps(urls, params, fetch, parse, decode))
    case Stop(r) => r
    case Next => Ok([])
  }

  /** `search_docs`: every URL pattern with every parameter set, until one reply decides. */
  method SearchDocs(provider: string, namespace: string, slug: string, dataType: string,
                    fetch: Request -> Response, parse: string -> Result<Json, string>,
                    decode: Json -> Result<DocsResponse, string>)
    returns (r: Result<seq<DocIdResult>, RegistryError>)
    ensures r == DocsWalk(DocsUrls(namespace, provider), DocsParams(dataType, slug), fetch, parse, decode)
  {
    var urls := DocsUrls(namespace, provider);
    var params := DocsParams(dataType, slug);
    ghost var outer := UrlSteps(urls, params, fetch, parse, decode);
    var u := 0;
    while u < |urls|
      invariant 0 <= u <= |urls|
      invariant FirstStop(outer) == FirstStop(outer[u..])
    {
      ghost var inner := ParamSteps(urls[u], params, fetch, parse, decode);
      var p := 0;
      while p < |params|
        invariant 0 <= p <= |params|
        invariant FirstStop(inner) == FirstStop(inner[p..])
      {
        var step := DocsStep(fetch(Request(urls[u], params[p])), parse, decode);
        if step.Stop? {
          assert FirstStop(inner) == step;
          assert FirstStop(outer[u..]) == FirstStop(inner);
          return step.result;
        }
        FirstStopFrom(inner, p);
        p := p + 1;
      }
      assert FirstStop(inner) == Next;
      FirstStopFrom(outer, u);
      u := u + 1;
    }
    r := Ok([]);
  }

  /** A 429 on the very first request ends the search at once. */
  lemma DocsWalkRateLimited(urls: seq<string>, params: seq<seq<(string, string)>>, fetch: Request -> Response,
                            parse: string -> Result<Json, string>, decode: Json -> Result<DocsResponse, string>)
    requires |urls| > 0 && |params| > 0
    requires fetch(Request(urls[0], params[0])).Reply? && fetch(Request(urls[0], params[0])).status == 429
    ensures DocsWalk(urls, params, fetch, parse, decode) == Err(RateLimited)
  {
    assert ParamSteps(urls[0], params, fetch, parse, decode)[0] == Stop(Err(RateLimited));
  }

  /** The search succeeds with an empty list iff every request moved on. */
  lemma DocsWalkExhausted(urls: seq<string>, params: seq<seq<(string, string)>>, fetch: Request -> Response,
                          parse: string -> Result<Json, string>, decode: Json -> Result<DocsResponse, string>)
    ensures DocsWalk(urls, params, fetch, parse, decode) == Ok([]) <==>
      forall u, p :: 0 <= u < |urls| && 0 <= p < |params| ==> DocsStep(fetch(Request(urls[u], params[p])), parse, decode).Next?
  {
    var outer := UrlSteps(urls, params, fetch, parse, decode);
    FirstStopSpec(outer);
    forall u | 0 <= u < |urls| {
      FirstStopSpec(ParamSteps(urls[u], params, fetch, parse, decode));
    }
  }

  /**
   * Any other success carries the documents of the first reply that had
   * some, URL-major: every request before it moved on.
   */
  lemma DocsWalkFound(urls: seq<string>, params: seq<seq<(string, string)>>, fetch: Request -> Response,
                      parse: string -> Result<Json, string>, decode: Json -> Result<DocsResponse, string>)
    requires DocsWalk(urls, params, fetch, parse, decode).Ok? && DocsWalk(urls, params, fetch, parse, decode).value != []
    ensures exists u, p :: (0 <= u < |urls| && 0 <= p < |params|
      && DocsStep(fetch(Request(urls[u], params[p])), parse, decode) == Stop(DocsWalk(urls, params, fetch, parse, decode))
      && (forall u', p' :: 0 <= u' < u && 0 <= p' < |params| ==>
            DocsStep(fetch(Request(urls[u'], params[p'])), parse, decode).Next?)
      && (forall p' :: 0 <= p' < p ==> DocsStep(fetch(Request(urls[u], params[p'])), parse, decode).Next?))
  {
    var outer := UrlSteps(urls, params, fetch, parse, decode);
    var u := StopIndex(outer);
    var p := StopIndex(ParamSteps(urls[u], params, fetch, parse, decode));
    forall u', p' | 0 <= u' < u && 0 <= p' < |params|
      ensures DocsStep(fetch(Request(urls[u'], params[p'])), parse, decode).Next?
    {
      UrlMovedOn(urls, params, fetch, parse, decode, u', p');
    }
  }

  /** A URL pattern moved on only if each of its parameter sets did. */
  lemma UrlMovedOn(urls: seq<string>, params: seq<seq<(string, string)>>, fetch: Request -> Response,
                   parse: string -> Result<Json, string>, decode: Json -> Result<DocsResponse, string>, u: nat, p: nat)
    requires u < |urls| && p < |params|
    requires UrlSteps(urls, params, fetch, parse, decode)[u].Next?
    ensures DocsStep(fetch(Request(urls[u], params[p])), parse, decode).Next?
  {
    FirstStopSpec(ParamSteps(urls[u], params, fetch, parse, decode));
  }

  /**
   * What `get_doc_content` does with one reply: a transport failure or a
   * 429 ends with an error, any other failure code moves on, and a body
   * that is not blank once trimmed is the content.
   */
  function ContentStep(resp: Response): (r: Step<string>)
    ensures (r.Stop? && r.result.Err?) <==> (resp.Failed? || resp.status == 429)
    ensures r.Stop? && r.result.Ok? <==> resp.Reply? && IsSuccess(resp.status) && Trim(resp.text) != ""
    ensures r.Stop? && r.result.Ok? ==> r.result.value == resp.text
  {
    match resp
    case Failed(m) => Stop(Err(HttpError(m)))
    case Reply(status, text) =>
      if status == 429 then Stop(Err(RateLimited))
      else if !IsSuccess(status) then Next
      else if Trim(text) != "" then Stop(Ok(text))
      else Next
  }

  function ContentSteps(urls: seq<string>, fetch: Request -> Response): (r: seq<Step<string>>)
    ensures |r| == |urls|
    ensures forall i :: 0 <= i < |urls| ==> r[i] == ContentStep(fetch(Request(urls[i], [])))
  {
    seq(|urls|, i requires 0 <= i < |urls| => ContentStep(fetch(Request(urls[i], []))))
  }

  /** What a content lookup over `urls` returns: the first deciding reply, or `DocumentationNotFound`. */
  function ContentWalk(docId: string, urls: seq<string>, fetch: Request -> Response): Result<string, RegistryError> {
    match FirstStop(ContentSteps(urls, fetch))
    case Stop(r) => r
    case Next => Err(DocumentationNotFound(docId))
  }

  /** `get_doc_content`: the content URL patterns in order, until one reply decides. */
  method GetDocContent(docId: string, fetch: Request -> Response) returns (r: Result<string, RegistryError>)
    ensures r == ContentWalk(docId, ContentUrls(docId), fetch)
  {
    var urls := ContentUrls(docId);
    ghost var steps := ContentSteps(urls, fetch);
    var i := 0;
    while i < |urls|
      invariant 0 <= i <= |urls|
      invariant FirstStop(steps) == FirstStop(steps[i..])
    {
      var step := ContentStep(fetch(Request(urls[i], [])));
      if step.Stop? {
        return step.result;
      }
      FirstStopFrom(steps, i);
      i := i + 1;
    }
    r := Err(DocumentationNotFound(docId));
  }

  /**
   * Content comes back only from a successful reply whose body is not
   * blank, every earlier pattern having moved on; `DocumentationNotFound`
   * comes back iff every pattern moved on.
   */
  lemma ContentWalkSpec(docId: string, urls: seq<string>, fetch: Request -> Response)
    ensures var r := ContentWalk(docId, urls, fetch);
            (r == Err(DocumentationNotFound(docId)) <==> forall i :: 0 <= i < |urls| ==> ContentStep(fetch(Request(urls[i], []))).Next?)
            && (r.Ok? ==> (Trim(r.value) != "" &&
                 exists i :: 0 <= i < |urls| && fetch(Request(urls[i], [])).Reply? && IsSuccess(fetch(Request(urls[i], [])).status)
                   && fetch(Request(urls[i], [])).text == r.value
                   && forall j :: 0 <= j < i ==> ContentStep(fetch(Request(urls[j], []))).Next?))
  {
    FirstStopSpec(ContentSteps(urls, fetch));
  }
}
