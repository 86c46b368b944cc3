# tfmcp core, modelled in Dafny

tfmcp is an MCP server for Terraform. It lets an assistant run the Terraform CLI, read its output, query the Terraform Registry and judge the health of a module. This project models the part of tfmcp that turns data already fetched into decisions, one Dafny module per source file:

- **Module-health analyser** (`Analyzer`, `DependencyGraph`, `Refactoring`; src/terraform/analyzer.rs). It covers:
  - resource-type classification;
  - cohesion and coupling classes;
  - metrics, issues and recommendations;
  - the clamped health score;
  - the resource dependency graph;
  - refactoring suggestions.
- **Registry layer**. It covers:
  - the TTL cache (`Cache`, a class over a `map`);
  - the read-through resolver (`Provider`);
  - the namespace-fallback walk (`Fallback`);
  - the chunked batch fetcher (`Batch`);
  - the client's reading of HTTP answers (`Client`, with `RegistryTypes`).
- **Readers of Terraform CLI output**:
  - plan analysis (`PlanAnalyzer`, with `Sorting`);
  - state analysis (`StateAnalyzer`);
  - DOT graph reading and depth (`Graph`);
  - `terraform providers` output and lock-file parsing (`Providers`);
  - refresh events (`Refresh`);
  - outputs (`Outputs`);
  - workspaces (`Workspace`);
  - taint (`Taint`);
  - import previews (`ImportHelper`).
- **Policy and utilities**:
  - the security policy and its glob matcher (`Security`);
  - the HCL parser's post-processing of regex captures (`Parser`);
  - summary builders (`Formatters`);
  - the tool-description prompt builder (`PromptBuilder`).

Supporting modules:

- `Strs`: the `str` operations the code relies on.
- `Json`: an abstract `serde_json::Value`.
- `Wrappers`: `Option`, `Result` and `filter_map`.
- `Process`: the outcome of a finished command.

Code that changes state step by step is modelled as methods with loops. Each method is proved equal to a specification function, and the properties are proved about that function. Pure decisions are modelled as functions and lemmas. Every outside effect is an input:

- the clock is a `now` argument;
- the HTTP reply is a `fetch` function;
- a command's exit status and output are a `CmdOutput`;
- serde parsing is a `parse` function;
- regex matches are lists of captures and counts.

What the source does not do, and the model therefore does not either:

- The cache has no single-flight or in-flight tracking of pending fetches (src/registry/cache.rs).
- The batch fetcher has no semaphore or deadline. It runs fixed chunks one after another (src/registry/batch.rs:36-84).
- The analyser's dependency graph has no cycle detection, and it always has exactly one module boundary (src/terraform/analyzer.rs:735-830).

The types the analyser imports are absent from src/terraform/model.rs, so the model defines those records from how the analyser uses them.

## Model

| member | source | states |
|---|---|---|
| Cache.LiveKeys | src/registry/cache.rs:27-37 | a key is live exactly when it is stored and its entry's age is below the TTL; the live keys are a subset of the stored ones |
| Cache.Retained | src/registry/cache.rs:53-56 | `retain` keeps exactly the live keys, each with its value and timestamp unchanged |
| Cache.StatsOf | src/registry/cache.rs:60-74 | total = valid + expired = number of stored entries, and valid counts the live keys |
| Cache.RetainedAllLive | src/registry/cache.rs:53-74 | after cleanup no stored entry counts as expired |
| Cache.SetThenLive | src/registry/cache.rs:40-49 | a value stored at `now` is live at `now` whenever the TTL is positive |
| Cache.ExpiresAfterTtl | src/registry/cache.rs:175-184 | an entry is no longer live once `ttl` has elapsed since it was stored |
| Cache.LiveKeysShrink | src/registry/cache.rs:27-37 | as time advances the live set only shrinks |
| Cache.SimpleCache.constructor | src/registry/cache.rs:19-24 | a new cache holds the given TTL and no entries |
| Cache.SimpleCache.Get | src/registry/cache.rs:27-37 | returns a value exactly when the key is live, and then the stored value; the storage is unchanged |
| Cache.SimpleCache.Set | src/registry/cache.rs:40-49 | the key maps to the new value stamped `now`; every other key keeps its entry |
| Cache.SimpleCache.CleanupExpired | src/registry/cache.rs:53-56 | the storage becomes the retained map, so no expired entry remains |
| Cache.SimpleCache.Stats | src/registry/cache.rs:60-74 | returns the statistics of the storage; total = valid + expired = size; the storage is unchanged |
| Cache.SimpleCache.Clear | src/registry/cache.rs:78-81 | the storage is empty |
| Cache.SimpleCache.Size | src/registry/cache.rs:85-88 | returns the number of stored entries, live or expired |
| Cache.CacheManager.constructor | src/registry/cache.rs:117-122 | two fresh empty caches, with TTLs of 1800 s for documentation and 600 s for providers |
| Cache.CacheManager.GlobalStats | src/registry/cache.rs:126-134 | a map with exactly the keys "documentation" and "providers", each holding that cache's statistics |
| Cache.CacheManager.CleanupAll | src/registry/cache.rs:138-141 | both caches are reduced to their live entries |
| Cache.CacheManager.ClearAll | src/registry/cache.rs:145-148 | both caches are empty |
| Batch.Clamp | src/registry/batch.rs:15-20 | the concurrency lies in [lo, hi], equals `n` when `n` is already there, and is the nearer bound otherwise |
| Batch.ChunksFlatten | src/registry/batch.rs:36-78 | concatenating the chunks gives back the request list: nothing lost, nothing reordered |
| Batch.FlattenMembers | src/registry/batch.rs:36-78 | an item is in the concatenated results exactly when it is in some chunk |
| Batch.ChunkSizes | src/registry/batch.rs:36 | every chunk holds between 1 and `max_concurrent` requests |
| Batch.ChunkCount | src/registry/batch.rs:36 | there are ⌈n / k⌉ chunks: they cover the list, and one chunk fewer would not |
| Batch.Fetched | src/registry/batch.rs:77-78 | one result per request, in request order |
| Batch.FetchInChunks | src/registry/batch.rs:36-84 | the chunk loop returns exactly one result per request, the i-th being the fetch of the i-th request |
| Batch.BatchFetcher.constructor | src/registry/batch.rs:15-20 | `max_concurrent` is clamped into [1, 10] |
| Batch.BatchFetcher.Default | src/registry/batch.rs:244-246 | a fresh fetcher that runs five requests at a time |
| Batch.BatchFetcher.FetchProviders | src/registry/batch.rs:24-98 | result i is the provider-info answer for request i, for every request |
| Batch.BatchFetcher.FetchProviderVersions | src/registry/batch.rs:102-165 | result i is Ok((version, namespace)) when the latest-version lookup succeeds and carries its error otherwise |
| Batch.BatchFetcher.FetchMultipleDocs | src/registry/batch.rs:169-240 | result i is the search-docs answer for request i, for every request |
| Batch.ClampSamples | src/registry/batch.rs:261-275 | the clamp on the tests' inputs: 0 → 1, 15 → 10, 20 → 10, 3 → 3, 5 → 5 |
| Fallback.Others | src/registry/fallback.rs:66-71 | the fallback namespaces that are not the explicit one, in list order |
| Fallback.OthersMembers | src/registry/fallback.rs:66-71 | a namespace is kept exactly when it is a fallback other than the explicit namespace |
| Fallback.AttemptOrderShape | src/registry/fallback.rs:45-71 | the explicit namespace is tried first and no namespace is tried twice |
| Fallback.OthersNone | src/registry/fallback.rs:66-71 | without an explicit namespace, the fallback list itself is the order |
| Fallback.WalkHit | src/registry/fallback.rs:45-90 | a hit is the first namespace whose answer is not a miss, and it carries that answer; every earlier namespace missed |
| Fallback.WalkExhausted | src/registry/fallback.rs:92-96 | the walk is exhausted exactly when every namespace misses |
| Fallback.WalkSkip | src/registry/fallback.rs:66-90 | namespaces that all miss can be skipped without changing the outcome |
| Fallback.WalkStop | src/registry/fallback.rs:74-80 | the walk stops at the first namespace that does not miss, with its answer |
| Fallback.VersionNotFoundAnywhere | src/registry/fallback.rs:92-96 | ProviderNotFoundAnywhere lists every namespace tried, in order, and only when each answered "not found" |
| Fallback.VersionFound | src/registry/fallback.rs:48-54 | a found version comes with the first namespace that did not answer "not found" |
| Fallback.DocsExhaustedNamespace | src/registry/fallback.rs:227-232 | with no explicit namespace, a fruitless docs search answers an empty list with the first fallback namespace |
| Fallback.ExplicitHit | src/registry/fallback.rs:45-63 | when the explicit namespace answers without a miss, the walk stops there |
| Fallback.FallbackHit | src/registry/fallback.rs:66-90 | when fallback i answers after every earlier namespace missed, the walk stops there |
| Fallback.AllMissed | src/registry/fallback.rs:92-96 | when every namespace misses, the walk is exhausted and the namespaces searched are the attempt order |
| Fallback.RegistryClientWithFallback.constructor | src/registry/fallback.rs:25-34 | the fallbacks are "hashicorp", "terraform-providers", "community", in this order |
| Fallback.RegistryClientWithFallback.GetProviderVersion | src/registry/fallback.rs:38-97 | the loop's result is the outcome of the walk over the attempt order, with "not found" as the miss |
| Fallback.RegistryClientWithFallback.GetProviderInfo | src/registry/fallback.rs:100-159 | the same walk, answering the provider record |
| Fallback.RegistryClientWithFallback.SearchDocsWithFallback | src/registry/fallback.rs:162-233 | the same walk with an empty list as the miss; any error ends it; exhaustion answers an empty list with the explicit namespace or the first fallback |
| Provider.DocKeysDisjoint | src/registry/provider.rs:32-33 | a doc-content key and a doc-id key never coincide, so the two entry kinds never overwrite each other in the shared cache |
| Provider.ProviderKeysDisjoint | src/registry/provider.rs:113-149 | a search key and an info key never coincide in the providers cache |
| Provider.ProviderResolver.constructor | src/registry/provider.rs:14-19 | a fresh cache manager whose two caches are empty |
| Provider.ProviderResolver.ResolveProviderDocId | src/registry/provider.rs:23-76 | a live, decodable entry under the (namespace, name, slug) key is returned and the cache is untouched; otherwise the answer is the registry search with the data type defaulting to "resources" |
| Provider.ProviderResolver.GetProviderDocs | src/registry/provider.rs:79-109 | a live entry is returned as stored; otherwise the fetched content is returned and, on success, stored under the doc key stamped `now` |
| Provider.ProviderResolver.SearchProviders | src/registry/provider.rs:112-140 | a live, decodable entry under the search key is returned and the cache is untouched; otherwise the registry's answer is returned |
| Provider.ProviderResolver.GetProviderInfo | src/registry/provider.rs:144-184 | the same, under the (namespace, name) info key |
| Provider.StoredIsAnswered | src/registry/provider.rs:144-184 | a successful fetch, once stored, is what the next lookup at the same instant returns, provided the TTL is positive and encoding round-trips |
| Taint.ActionName | src/terraform/taint.rs:53-56 | the command word is "taint" or "untaint", and "taint" exactly for the Taint action |
| Taint.ParseAction | src/terraform/taint.rs:21-30 | parsing is case-insensitive: Taint exactly for "taint", Untaint exactly for "untaint", an error for anything else |
| Taint.ParseActionName | src/terraform/taint.rs:21-30 | parsing an action's command word gives the action back |
| Taint.ParseActionUpper | src/terraform/taint.rs:178-185 | upper-case spellings parse too, as the test expects |
| Taint.ReplacementCommand | src/terraform/taint.rs:146-148 | the command is the fixed `terraform apply -replace='` prefix, the address, and a closing quote, so the address can be read back out |
| Taint.ReplacementCommandInjective | src/terraform/taint.rs:146-148 | distinct addresses give distinct commands |
| Taint.FailureMessage | src/terraform/taint.rs:85-101 | after a failed command the first matching text decides the message: missing instance, not tainted, already tainted, needs init, else the trimmed stderr with newlines made spaces |
| Taint.TaintOutcome | src/terraform/taint.rs:44-111 | the result carries the success flag, the action word, the address and the warning unchanged; the message is the marked/unmarked text on success and the failure message otherwise |
| Taint.DigitValue | src/terraform/taint.rs:127-128 | a digit's value is below 10 |
| Taint.ParseI32 | src/terraform/taint.rs:127-128 | `parse::<i32>`: a result lies in the i32 range, an in-range run of digits parses to its value, and the empty text fails |
| Taint.WarnsAgreeOn1x | src/terraform/taint.rs:113-130 | on the 1.x line the rule as written and the documented "1.5+" rule agree |
| Taint.WarnsForMonotone | src/terraform/taint.rs:113 | under the documented rule, a version that is warned about stays warned about in every later version |
| Taint.AsWrittenNotMonotone | src/terraform/taint.rs:130 | as written, 1.5 warns but the later 2.0 does not |
| Taint.MajorMinorOf20 | src/terraform/taint.rs:125-129 | "2.0" splits into major 2 and minor 0 |
| Taint.DeprecationWarningAsWritten | src/terraform/taint.rs:113-137 | as written, a warning is given exactly when `major >= 1 && minor >= 5` holds of the parsed version, and it is the deprecation note naming that version |
| Taint.DeprecationWarning | src/terraform/taint.rs:113-137 | corrected: a warning is given exactly when the version is 1.5 or later, and it is the same deprecation note |
| Taint.DeprecationMissedFor20 | src/terraform/taint.rs:130 | Terraform "2.0" gets no warning as written, but does under the documented rule |
| Refresh.RefreshArgs | src/terraform/refresh.rs:43-52 | the refresh runs `apply -refresh-only -auto-approve -json`, plus one `-target=` argument exactly when a target is given |
| Refresh.PreviewArgs | src/terraform/refresh.rs:93-98 | the preview runs `plan -refresh-only -json` and never approves or applies; a target adds one `-target=` argument |
| Refresh.ChangeOf | src/terraform/refresh.rs:140-184 | a line yields a change only if it is non-blank, parses and has an address; a Drifted change comes from a `resource_drift` event, an Updated one from a `planned_change` whose action is "update" |
| Refresh.Changes | src/terraform/refresh.rs:135-190 | there are at most as many changes as lines |
| Refresh.ChangesAppend | src/terraform/refresh.rs:135-190 | the changes of two runs of lines are the changes of each, in order |
| Refresh.ChangesFromLines | src/terraform/refresh.rs:135-190 | every change comes from some line of the output |
| Refresh.ParseLines | src/terraform/refresh.rs:138-187 | the loop over the lines collects exactly the changes of the lines |
| Refresh.ParseRefreshOutput | src/terraform/refresh.rs:135-190 | the parsed changes are those of the output's lines, and empty output has none (test at 216-219) |
| Refresh.CountOf | src/terraform/refresh.rs:65-68 | a count of one change type never exceeds the number of changes |
| Refresh.CountOfAppend | src/terraform/refresh.rs:65-68 | counting over two runs of changes adds up |
| Refresh.CountOfPositive | src/terraform/refresh.rs:70-74 | the count is positive exactly when a change of that type is present |
| Refresh.ExecuteRefresh | src/terraform/refresh.rs:38-83 | a failed command is the error "Refresh failed: " and stderr; otherwise the Updated changes are counted and the message says how many resources were refreshed, or that none needed it |
| Refresh.PreviewRefresh | src/terraform/refresh.rs:87-132 | a failed plan is the error "Refresh preview failed: " and stderr; otherwise the Drifted changes are counted and reported as resources that would be updated |
| Refresh.StaleAddresses | src/terraform/refresh.rs:194-209 | one address is reported per Drifted change |
| Refresh.StaleAddressesDrifted | src/terraform/refresh.rs:194-209 | every reported address belongs to a Drifted change |
| Refresh.DriftEventLine | src/terraform/refresh.rs:222-229 | one drift event gives exactly one Drifted change for its address |
| Refresh.PlannedChangeLine | src/terraform/refresh.rs:160-180 | a planned change gives an Updated change exactly when its action, "update" by default, is "update" |
| Outputs.ValueType | src/terraform/output.rs:138-153 | every value has a non-empty type name |
| Outputs.ValueTypeHead | src/terraform/output.rs:138-153 | "null", "bool", "number", "string" and "object" name exactly their kinds, and a list's name is "list" or starts with "list(" |
| Outputs.ValueTypeFaithful | src/terraform/output.rs:138-153 | equal type names mean values of the same shape, down the chain of first list elements |
| Outputs.ValueTypeNumberList | src/terraform/output.rs:191-201 | a list of numbers is named "list(number)", as the test expects |
| Outputs.OutputOf | src/terraform/output.rs:90-113 | an output's value defaults to null, it is sensitive only when "sensitive" is true, and its type is the stated "type" or else the one inferred from the value |
| Outputs.OutputsOf | src/terraform/output.rs:88-116 | one output per member of the outputs object, each built from its own member, in order |
| Outputs.OutputArgs | src/terraform/output.rs:31-37 | the command is `output -json`, followed by the name when one is requested |
| Outputs.CountMessage | src/terraform/output.rs:123-128 | the message is "No outputs found" exactly for zero outputs, else "Found n outputs" |
| Outputs.GetOutputs | src/terraform/output.rs:26-135 | a failure with no outputs is a success with none; otherwise the "not found" and generic failures are errors; a named output becomes one record, the all-outputs object one record per member, a non-object an error, and parse failures are errors |
| Outputs.SimplePair | src/terraform/output.rs:177-181 | a line gives a pair exactly when it contains " = " |
| Outputs.SimplePairs | src/terraform/output.rs:176-183 | there are at most as many pairs as lines |
| Outputs.ParseSimpleLines | src/terraform/output.rs:176-183 | the loop collects exactly the pairs of the lines, in order |
| Outputs.GetOutputsSimple | src/terraform/output.rs:157-184 | a failure saying "No outputs found" is an empty success, any other failure an error, and success gives the pairs of the output's lines |
| StateAnalyzer.FormatAddressSpec | src/terraform/state_analyzer.rs:237-242 | an address always ends with "." and the name; under a non-empty module it is the module, a '.', and the bare `type.name` address, and otherwise just the bare address |
| StateAnalyzer.BareAddressSplits | src/terraform/state_analyzer.rs:399-408 | a bare address splits back into its type and name when neither holds a '.' |
| StateAnalyzer.ExtractProviderName | src/terraform/state_analyzer.rs:245-258 | a provider with no '/' is returned unchanged, and the extracted name never holds a '/' |
| StateAnalyzer.ProviderNameOfAddress | src/terraform/state_analyzer.rs:390-396 | the state's `provider["host/namespace/name"]` form gives back the bare provider name |
| StateAnalyzer.InstanceAddress | src/terraform/state_analyzer.rs:140-163 | a single instance takes the resource's address; otherwise the address is followed by a bracketed key or position |
| StateAnalyzer.Expand | src/terraform/state_analyzer.rs:138-205 | a resource without instances gives no entries, otherwise one entry per instance, in order |
| StateAnalyzer.ExpandAllFrom | src/terraform/state_analyzer.rs:126-205 | every entry comes from a resource the type filter keeps, carries its type and provider name, and is tainted exactly when its instance's status is "tainted" |
| StateAnalyzer.ExpandAllLength | src/terraform/state_analyzer.rs:126-205 | the number of entries is the number of instances of the kept resources |
| StateAnalyzer.AddProviderSum | src/terraform/state_analyzer.rs:176-185 | recording one entry raises the provider counts' total by one |
| StateAnalyzer.AddProviderNames | src/terraform/state_analyzer.rs:176-185 | after recording, the providers are the ones before plus the entry's provider |
| StateAnalyzer.AddProviderDistinct | src/terraform/state_analyzer.rs:176-185 | the provider table keeps one row per provider name, like the map it models |
| StateAnalyzer.AddProviderTypes | src/terraform/state_analyzer.rs:186-193 | a type is listed at most once under a provider |
| StateAnalyzer.ProviderTableSpec | src/terraform/state_analyzer.rs:176-193 | the provider counts add up to the number of entries, there is one row exactly for each provider that occurs, and no row lists a type twice |
| StateAnalyzer.AddTypeSpec | src/terraform/state_analyzer.rs:195-203 | recording one entry raises the type counts' total by one and keeps each count equal to its number of addresses |
| StateAnalyzer.TypeTableSpec | src/terraform/state_analyzer.rs:195-203 | the type counts add up to the number of entries, and each count equals its number of addresses |
| StateAnalyzer.SortDescSpec | src/terraform/state_analyzer.rs:217-221 | sorting by count gives descending order and a permutation of the rows |
| StateAnalyzer.SortDescSum | src/terraform/state_analyzer.rs:217-221 | sorting changes no total |
| StateAnalyzer.DetectDriftIssues | src/terraform/state_analyzer.rs:261-299 | the loop gives, entry by entry, exactly the results of the three drift checks |
| StateAnalyzer.ReadDrift | src/terraform/state_analyzer.rs:266-295 | one loop step appends that entry's results |
| StateAnalyzer.DriftBound | src/terraform/state_analyzer.rs:261-299 | each entry yields at most three results |
| StateAnalyzer.ModifiedIffTainted | src/terraform/state_analyzer.rs:266-273 | there is a Modified result for an address exactly when an entry with that address is tainted |
| StateAnalyzer.ConfigurationDriftIff | src/terraform/state_analyzer.rs:276-295 | there is a ConfigurationDrift result for an address exactly when an entry with that address has no attributes or is a `data.` source |
| StateAnalyzer.TaintedCount | src/terraform/state_analyzer.rs:324 | the tainted count is at most the number of entries, and zero exactly when no entry is tainted |
| StateAnalyzer.ModuleCount | src/terraform/state_analyzer.rs:343 | the module count is at most the number of entries, and zero exactly when no entry is in a module |
| StateAnalyzer.HealthCheckNames | src/terraform/state_analyzer.rs:302-383 | the checks are state_not_empty, no_tainted_resources, then module_usage exactly when some entry is in a module and there are more than ten, and last provider_count |
| StateAnalyzer.HealthCheckWarnings | src/terraform/state_analyzer.rs:308-381 | each check warns exactly on its condition: an empty state, a tainted entry, fewer than half the entries in modules, more than five providers |
| StateAnalyzer.HealthChecksNeverCritical | src/terraform/state_analyzer.rs:302-383 | no check is ever Critical |
| StateAnalyzer.AddInstances | src/terraform/state_analyzer.rs:138-205 | the instance loop appends the resource's entries and keeps both tables equal to the tables of all entries so far |
| StateAnalyzer.AnalyzeState | src/terraform/state_analyzer.rs:115-234 | the analysis holds the entries of every kept resource, a total equal to their number, both tables sorted by count, the drift results only when asked, and the health checks |
| StateAnalyzer.AnalysisTables | src/terraform/state_analyzer.rs:206-221 | the sorted provider table adds up to the total, is in descending order, is a permutation of the table, has one row per provider and lists no type twice |
| Security.DefaultPolicy | src/shared/security.rs:54-81 | the default policy forbids dangerous operations and auto-approve, allows the six read-only commands only, blocks the five production and secret patterns, caps resources at 50 and enables audit logging |
| Security.IsCommandAllowed | src/shared/security.rs:140-146 | apply and destroy are allowed exactly when dangerous operations are; every other command exactly when it is on the allow-list |
| Security.IsAutoApproveAllowed | src/shared/security.rs:148-155 | apply and destroy may auto-approve exactly when both switches are on; every other command always may |
| Security.DefaultCommandSecurity | src/shared/security.rs:337-354 | under the default policy a command runs exactly when it is one of the six read-only ones, and nothing dangerous auto-approves |
| Security.DangerousNeedsBothSwitches | src/shared/security.rs:140-155 | enabling dangerous operations alone lets apply and destroy run but not auto-approve |
| Security.CheckResourceLimit | src/shared/security.rs:249-260 | the check fails exactly when a limit is set and the count exceeds it, with the "Operation blocked" message naming both numbers |
| Security.ResourceLimitMonotone | src/shared/security.rs:249-260 | the limit itself is accepted, and a larger limit accepts whatever a smaller one does |
| Security.Decide | src/shared/security.rs:159-246 | the patterns are tried in order, and the path passes exactly when every pattern misses |
| Security.DecideBlocks | src/shared/security.rs:159-246 | the path is blocked exactly when some pattern hits and every pattern before it misses |
| Security.DecidePanic | src/shared/security.rs:171 | a `**/` + `/` + `**` pattern slices an empty middle out of range; when it is reached after misses the check has no answer |
| Security.Verdicts | src/shared/security.rs:159-246 | one verdict per pattern |
| Security.LastSegment | src/shared/security.rs:179 | the last '/'-segment holds no '/' and ends the path |
| Security.WildcardMatches | src/shared/security.rs:211-237 | the loop over a plain `*` pattern's parts, with its `pos` and `matched` variables, decides exactly the recursive match |
| Security.AnySegmentMatches | src/shared/security.rs:179-183 | the segment loop finds a match exactly when some '/'-segment starts with the prefix and ends with the suffix |
| Security.CheckPattern | src/shared/security.rs:160-244 | one pattern's branches give exactly its verdict |
| Security.IsFileBlocked | src/shared/security.rs:157-247 | the method lower-cases the path and patterns, tries each pattern in turn, and returns exactly the policy's decision |
| Security.LiteralPattern | src/shared/security.rs:241-243 | a pattern without `*` blocks exactly the paths containing it, and never panics |
| Security.WildAnchors | src/shared/security.rs:215-227 | a matching plain `*` pattern starts the path with its first part and ends it with its last |
| Security.WildMiddle | src/shared/security.rs:228-235 | every middle part of a matching plain `*` pattern occurs after the scan position |
| Security.WildTwoParts | src/shared/security.rs:209-240 | a pattern `x*y` matches exactly the paths starting with x and ending with y |
| Security.WildContains | src/shared/security.rs:209-240 | `*x*` with a non-empty x matches exactly the paths containing x |
| Security.DirectoryMiddle | src/shared/security.rs:170-184 | the middle `/x*/` hits exactly the paths with a '/'-segment starting with x |
| Security.DirectoryPattern | src/shared/security.rs:162-193 | `**/x*/**` blocks exactly the paths with a '/'-segment starting with x |
| Security.TailPattern | src/shared/security.rs:194-201 | `**` followed by a non-empty text blocks exactly the paths ending in that text, stars taken literally |
| Security.FileWordVerdict | src/shared/security.rs:194-201 | `**/*w*u` blocks exactly the paths ending in the literal text `/*w*u` |
| Security.DefaultFilePatternsLiteral | src/shared/security.rs:67-71 | on a path without a star the three default file patterns never hit |
| Security.DecideNoPanic | src/shared/security.rs:159-246 | with no panicking pattern, one hit anywhere blocks the path |
| Security.ProdSegmentBlocked | src/shared/security.rs:67-68 | under the default policy a path with a '/'-segment starting with "prod" is blocked |
| Security.ProdDirectoryBlocked | src/shared/security.rs:361-364 | a directory named `prod` blocks the path, as the test's `/some/path/prod/main.tf` is |
| Security.ProdFileBlocked | src/shared/security.rs:362-365 | a file name starting with `prod` blocks the path, as the test's `/some/path/production.tf` is |
| Security.UnrelatedPathAllowed | src/shared/security.rs:363-366 | a star-free path in which "prod" does not occur passes the default policy, as the test's `/some/path/dev/main.tf` does |
| Security.CorrectedVerdict | src/shared/security.rs:194-201 | the corrected reading of `**/x` patterns panics only where the written reading does |
| Security.FileWordCorrected | src/shared/security.rs:69-71 | corrected, `**/*w*` hits exactly the paths whose last segment contains w |
| Security.CorrectedTail | src/shared/security.rs:194-201 | corrected, a `**/x` pattern with a star in x matches x against the last segment |
| Security.CorrectedBlocksSecretFiles | src/shared/security.rs:71 | corrected, the default policy blocks every lower-case path whose file name contains "secret" |
| Security.SecretFileMissed | src/shared/security.rs:71 | as written, `/app/secret.tfvars` passes the default policy; corrected, it is blocked |
| Strs.Joined | src/formatters/output.rs:17 | `format!("{}/{}")` and `format!("{}.{}")`: the first text, the separator and the second text, each found again at its position |
| Strs.RoundedPercent | src/terraform/analyzer.rs:554 | `{:.0}` of a percentage, shared with the module-usage message (src/terraform/state_analyzer.rs:351-359): the nearest integer to `part * 100 / whole`, the even one on a tie |
| Formatters.ProviderIdInjective | src/formatters/output.rs:17 | the id gives back namespace and name when the namespace holds no '/' |
| Formatters.EntryOf | src/formatters/output.rs:14-27 | a listed provider carries its id, name, namespace, version, downloads and registry URL |
| Formatters.FormatProviderList | src/formatters/output.rs:11-31 | the count is the input length and each entry describes the provider at the same position |
| Formatters.FormatProviderDetails | src/formatters/output.rs:34-87 | a versions section exists exactly when versions are given, with the count and, as latest, the first version or else the provider's own |
| Formatters.FormatDocumentationResults | src/formatters/output.rs:90-108 | one link per document, in order, whose URL ends in the document's id |
| Formatters.FormatErrorWithSuggestions | src/formatters/output.rs:111-145 | the error and suggestions pass through, and at most the first five hinted providers are listed, in order |
| Formatters.FormatValidationResults | src/formatters/output.rs:148-174 | the status is "valid" exactly when the configuration is valid, the counts match the lists, and there are one or three next steps |
| Formatters.PopularityScore | src/formatters/output.rs:227-234 | the buckets split downloads at 1,000, 10,000 and 100,000, each boundary in the lower bucket |
| Formatters.PopularityMonotone | src/formatters/output.rs:227-234 | more downloads never give a lower bucket |
| Formatters.PopularitySamples | src/formatters/output.rs:321-332 | the test's sample values land in the buckets it expects |
| Formatters.AssessMaturity | src/formatters/output.rs:236-243 | the maturity splits the version count at 5, 20 and 50, each boundary in the lower level |
| Formatters.MaturityMonotone | src/formatters/output.rs:236-243 | more versions never give a lower maturity |
| Formatters.LastMaxIndex | src/formatters/output.rs:248-256 | `max_by_key` picks a maximum, the last one when several tie |
| Formatters.ProviderRecommendations | src/formatters/output.rs:245-265 | there is nothing for no providers, otherwise "most_popular" names a provider with the most downloads and "most_mature" one with the most versions; on a tie both name the last such provider (LastMaxIndex), as `max_by_key` does |
| Formatters.ComparisonOf | src/formatters/output.rs:180-194 | a compared provider keeps its id and downloads, at most its first three versions, and its popularity and maturity |
| Formatters.FormatProviderComparison | src/formatters/output.rs:178-200 | one entry per provider, in order, followed by the recommendations |
| Formatters.FormatCacheStats | src/formatters/output.rs:203-224 | one view per named cache, with its counts copied |
| Graph.ParseGraphType | src/terraform/graph.rs:79-88 | "plan" and "apply" parse in any letter case, and everything else is an error |
| Graph.ExtractProviderFromResource | src/terraform/graph.rs:295-307 | a provider is always found, and it holds no '_' and no '.' |
| Graph.TypeProvider | src/terraform/graph.rs:301-305 | the provider of a type segment holds no '_' and no '.' |
| Graph.ResourceProvider | src/terraform/graph.rs:425-434 | an id `p_rest.name` with no '_' or '.' in p is attributed to provider p, as for `aws_instance.example` |
| Graph.RootPrefixIgnored | src/terraform/graph.rs:297-300 | a leading "[root] " does not change the provider of a resource id |
| Graph.DataPrefixIgnored | src/terraform/graph.rs:297-300 | a leading "data." does not change the provider of a resource id |
| Graph.DetermineNodeType | src/terraform/graph.rs:256-292 | the first matching rule decides the kind, in the order root, provider, module, variable, output, data source, else resource; only providers, data sources and resources carry a provider |
| Graph.ProviderNodeName | src/terraform/graph.rs:262-268 | a provider node's name holds no '/' |
| Graph.ProviderNodeNameOf | src/terraform/graph.rs:261-269 | `provider["host/namespace/name"]` is named by its last segment |
| Graph.ParseEdgeLineAsWritten | src/terraform/graph.rs:183-210 | as written, an edge has two non-empty ends |
| Graph.ParseEdgeLine | src/terraform/graph.rs:183-210 | corrected, an edge has two non-empty ends |
| Graph.NoArrowNoEdge | src/terraform/graph.rs:184-187 | a line without "->" is not an edge, for both parsers |
| Graph.EdgeRoundTrip | src/terraform/graph.rs:183-210 | reading back an edge statement gives both its ends, for every pair of plain ids whose target has no attribute opener |
| Graph.EdgeRoundTripAsWritten | src/terraform/graph.rs:400-406 | the written parser reads back an edge whose target holds no '[', as the test's does |
| Graph.AsWrittenTargetNoBracket | src/terraform/graph.rs:194-203 | a target from the written parser never holds '[', so it never starts with "provider[" |
| Graph.AsWrittenCutsTarget | src/terraform/graph.rs:194-203 | the written parser keeps only the part of a target before its first '[' |
| Graph.ProviderTargetTruncated | src/terraform/graph.rs:198 | as written, an edge into `provider["…"]` comes back with target "provider" and is typed a reference; corrected, the target is whole and the edge is a provider edge |
| Graph.RootTargetDropped | src/terraform/graph.rs:198-207 | as written, an edge into a "[root] …" id is dropped; corrected, it is read back whole |
| Graph.DotDropsRootEdge | src/terraform/graph.rs:153-162 | the reading loop drops the statement of an edge into a "[root] …" id and leaves its state unchanged |
| Graph.DotCutsProviderEdge | src/terraform/graph.rs:153-162 | the reading loop records an edge into `provider["…"]` with target "provider", typed as a reference |
| Graph.DetermineEdgeType | src/terraform/graph.rs:310-321 | an edge is a provider edge when either end is a provider, else a module edge when either end is a module, else a reference |
| Graph.EdgeTypeSymmetric | src/terraform/graph.rs:310-321 | the edge type does not depend on which end is which |
| Graph.CreateNode | src/terraform/graph.rs:244-253 | a node keeps its id and label, and takes its kind and provider from the id alone |
| Graph.LabelOf | src/terraform/graph.rs:220-233 | the label is the id, or a text with no double quote |
| Graph.ParseNodeLine | src/terraform/graph.rs:213-236 | the id is quote-free, and the node is built from its id and label |
| Graph.NodeLineNeedsTwoQuotes | src/terraform/graph.rs:215-216 | a statement gives a node exactly when it holds two double quotes |
| Graph.NodeLineWithoutLabel | src/terraform/graph.rs:231-233 | a statement without "label" is the node of its first quoted text, labelled with its id |
| Graph.NodeRoundTrip | src/terraform/graph.rs:213-236 | a node statement as `terraform graph` prints it reads back as the node with that id and label |
| Graph.EdgeOfLine | src/terraform/graph.rs:154-162 | a line gives an edge exactly when it is an edge statement that `parse_edge_line` as written reads, with those two ends, typed by them |
| Graph.DotEdges | src/terraform/graph.rs:134-180 | the edges are exactly those of the edge statements that `parse_edge_line` as written reads, at most one per line |
| Graph.DotNodes | src/terraform/graph.rs:134-180 | an id is in the node map exactly when some line declares it |
| Graph.DefinitionReplaces | src/terraform/graph.rs:164-168 | a node statement replaces whatever the map held for its id |
| Graph.BareIdKeeps | src/terraform/graph.rs:170-175 | a bare quoted id adds a node only when the id is new, and never replaces one |
| Graph.ReadLine | src/terraform/graph.rs:139-176 | one loop step changes the map, the id order and the edges exactly as the reading function does, edges read as written |
| Graph.ParseDotOutput | src/terraform/graph.rs:134-180 | the nodes are the node map's values, each id once, and the edges, read as written, come in line order |
| Graph.NodesInOrder | src/terraform/graph.rs:178 | every id listed gives its node from the map, one node per id, in the order the ids are listed |
| Graph.CountTypeSpec | src/terraform/graph.rs:330-338 | a kind is counted exactly when some node has it, and at most once per node |
| Graph.CountsWithinTotal | src/terraform/graph.rs:330-338 | the four counted kinds together never exceed the number of nodes |
| Graph.CalculateStatistics | src/terraform/graph.rs:324-352 | the totals, the per-kind counts, and a maximum depth reached by some walk from a root |
| Graph.AdjOfSpec | src/terraform/graph.rs:357-360 | b is a successor of a exactly when some edge leads from a to b |
| Graph.BuildAdjacency | src/terraform/graph.rs:357-360 | the loop builds exactly the adjacency of the edges |
| Graph.RootIdsSpec | src/terraform/graph.rs:363-367 | the starting points are exactly the ids of root nodes or ids containing "[root]" |
| Graph.CalculateMaxDepth | src/terraform/graph.rs:355-393 | the depth is reached by a walk from a root, and a search that finishes bounds every such walk; with no roots it is 0 |
| Graph.SearchStep | src/terraform/graph.rs:375-388 | one pop keeps the search invariant and records the popped node |
| Graph.WalkFrom | src/terraform/graph.rs:373-389 | the walk from one root keeps the depth witnessed, and when its stack empties every root so far is visited |
| Graph.VisitStep | src/terraform/graph.rs:381-388 | visiting a node deeper than before records it and schedules its successors one level down, keeping the invariant |
| Graph.ClosedReach | src/terraform/graph.rs:373-390 | once the search is closed, every walk from a root ends at a node recorded at least that deep |
| Graph.CycleUnbounded | src/terraform/graph.rs:375-388 | once a root reaches a cycle there are walks from a root longer than any bound, so the source's walk never ends |
| Graph.GraphArgs | src/terraform/graph.rs:98-106 | the command is `graph`, with one `-type=` argument exactly when a type is asked for |
| Graph.GraphArgsRoundTrip | src/terraform/graph.rs:79-106 | the `-type=` argument names the type in a form the type parser reads back |
| Graph.GenerateGraph | src/terraform/graph.rs:92-131 | a failed run is an error carrying stderr; otherwise the DOT text is kept and read into nodes and edges, and the statistics hold the counts and a maximum depth reached by a walk from a root, bounding every such walk when the search finished |
| ImportHelper.AddressRoundTrip | src/terraform/import_helper.rs:56 | the first '.' of the address ends the type, when the type holds no '.' |
| ImportHelper.RenderHeader | src/terraform/import_helper.rs:109-248 | a rendered template opens with its header, and a named one repeats the resource name after it |
| ImportHelper.SuggestedConfigHeader | src/terraform/import_helper.rs:109-248 | every suggested block, the generic one included, opens with the `resource` header, and a type with its own template names the resource again in the body |
| ImportHelper.GroupWarning | src/terraform/import_helper.rs:259-284 | a type gets a group warning exactly when it is in one of the five groups; databases get the password warning and security groups the rules warning |
| ImportHelper.ImportWarnings | src/terraform/import_helper.rs:251-292 | the plan warning comes first, there are one to three warnings, and the data-source warning appears exactly for `data.` types |
| ImportHelper.GenerateImportWarnings | src/terraform/import_helper.rs:251-292 | the method pushes exactly the warnings of the type, in order |
| ImportHelper.DatabaseWarnsPassword | src/terraform/import_helper.rs:346-352 | a database type is warned that its password is not imported |
| ImportHelper.SecurityGroupWarnsReview | src/terraform/import_helper.rs:270-273 | a security-group type is told to review its rules |
| ImportHelper.PreviewImport | src/terraform/import_helper.rs:28-46 | the preview never fails, and carries the address, the id, the type, the suggested block and the warnings |
| ImportHelper.ImportArgs | src/terraform/import_helper.rs:59-62 | the command is `import`, the address, and the cloud id |
| ImportHelper.ImportFailureMessage | src/terraform/import_helper.rs:78-96 | the first recognised stderr text decides the message: a missing remote object, an already-managed resource, a missing configuration block ("No configuration found for '…'"), else "Import failed: " followed by the stderr |
| ImportHelper.ImportOutcome | src/terraform/import_helper.rs:49-106 | a result is always returned; success mirrors the exit status, the output is stdout on success and stderr on failure, and the message follows |
| ImportHelper.ImportIdHint | src/terraform/import_helper.rs:296-321 | an unknown type gets the generic hint |
| ImportHelper.HintExamples | src/terraform/import_helper.rs:337-343 | the hints for an instance and a bucket name what the id is |
| Providers.ParseProviderLine | src/terraform/providers.rs:120-162 | a parsed provider has the last two path segments as name and namespace, the whole path as source, and the same word as version and constraint |
| Providers.NoBracketNoProvider | src/terraform/providers.rs:132 | a line that does not mention "provider[" never yields a provider |
| Providers.ProviderLineRoundTrip | src/terraform/providers.rs:314-320 | a provider line `provider[host/namespace/name] version` reads back as exactly that provider |
| Providers.BracketedOf | src/terraform/providers.rs:132-135 | the text between "provider[" and the first ']' is taken as the path |
| Providers.TreePrefixIgnored | src/terraform/providers.rs:323-328 | the tree-drawing prefix in front of a provider line makes no difference |
| Providers.FirstByKeySpec | src/terraform/providers.rs:94-111 | deduplication keeps the first provider of each namespace/name key, in input order, and every key of the input is kept |
| Providers.FirstByKeyDistinct | src/terraform/providers.rs:94-111 | no two kept providers share a key |
| Providers.ParseProvidersOutput | src/terraform/providers.rs:77-117 | the providers are the first of each key among the lines' parses, in line order |
| Providers.ParseProviderLines | src/terraform/providers.rs:81-114 | the loop with its set of seen keys computes exactly that deduplication |
| Providers.Flush | src/terraform/providers.rs:190-197 | the current block yields one lock exactly when it has both a provider and a version |
| Providers.ParseLockHcl | src/terraform/providers.rs:177-244 | the locks are those the lines give read in order, and the reader never fails |
| Providers.ReadLockLine | src/terraform/providers.rs:185-230 | one loop step changes the locks and the current fields exactly as the reading function does |
| Providers.LocksAppendBlock | src/terraform/providers.rs:188-208 | a `provider "` line closes the block before it, so the lines before it and from it on are read independently |
| Providers.BlockFold | src/terraform/providers.rs:210-230 | inside a block the version and constraints are the last ones given, the hashes are all of them in order, and no lock is closed |
| Providers.SingleBlock | src/terraform/providers.rs:331-346 | one block yields one lock exactly when it has a version line, with its name, last version and constraints, and its hashes in order |
| Providers.HeaderNoLocks | src/terraform/providers.rs:184-244 | lines before the first block yield nothing |
| Providers.HashRoundTrip | src/terraform/providers.rs:226-229 | a hash line gives the hash between its quotes |
| Providers.VersionEntry | src/terraform/providers.rs:290-301 | a recorded entry has a non-empty name other than `version` and a quote-free value |
| Providers.ExtractProviderRequirements | src/terraform/providers.rs:268-306 | the requirements after one file are those read from its lines, added to the ones collected so far |
| Providers.ReadRequirementLine | src/terraform/providers.rs:273-304 | one loop step changes the block flag, the depth and the map exactly as the reading function does |
| Providers.ReadVersionEntry | src/terraform/providers.rs:290-301 | the lookup inside the loop yields exactly the line's entry |
| Providers.ReqFoldOrigin | src/terraform/providers.rs:268-306 | every requirement afterwards was there before, unchanged, or was read from one of the lines |
| Providers.NeverRecordsVersion | src/terraform/providers.rs:298 | no requirement named `version` is ever added |
| Providers.OutsideUnchanged | src/terraform/providers.rs:275-280 | outside a block, lines that never mention `required_providers` change nothing |
| Providers.BlockReopens | src/terraform/providers.rs:275-278 | a `required_providers` line starts the block afresh at depth zero |
| Providers.ClosingLine | src/terraform/providers.rs:284-287 | the line that closes the block records nothing and leaves the block |
| Providers.ReqFoldGrows | src/terraform/providers.rs:268-306 | requirements are only added or replaced, never removed |
| Providers.VersionLineSkipped | src/terraform/providers.rs:296-300 | the `version = "…"` line of the usual multi-line form records nothing, because the text before its `=` is `version` |
| Providers.InlineEntryTakesFirstQuote | src/terraform/providers.rs:290-300 | a line `name = … "v" …` records its first quoted text under `name`, so in the one-line form it is the source address, not the version |
| Providers.LockFileLocks | src/terraform/providers.rs:165-174 | a missing lock file has no locks, an unreadable one gives no answer, and a readable one is parsed |
| Providers.GetProviders | src/terraform/providers.rs:38-74 | a failed command is an error carrying stderr; otherwise the deduplicated providers, the locks only when asked for, and "Found n providers" |
| Parser.ProviderOfType | src/terraform/parser.rs:42-46 | the provider is the type up to its first '_', or the whole type |
| Parser.ProviderOfPrefixed | src/terraform/parser.rs:226-246 | a type whose first '_' follows p has provider p, as `aws_instance` has "aws" |
| Parser.ResourcesFromCaptures | src/terraform/parser.rs:35-59 | every resource carries the file name and the provider its type starts with, and comes from a resource header |
| Parser.ResourcesInOrder | src/terraform/parser.rs:35-59 | there is one resource per header, in order |
| Parser.FieldType | src/terraform/parser.rs:126-128 | a type is found exactly when the block has a `type =` field, and it is trimmed |
| Parser.FieldJson | src/terraform/parser.rs:156-175 | a value is found exactly when the block has the field |
| Parser.FieldJsonFallback | src/terraform/parser.rs:156-175 | valid JSON is kept as parsed, and anything else becomes the trimmed text as a JSON string |
| Parser.VariablesFromCaptures | src/terraform/parser.rs:62-79 | every variable comes from a variable block, and its description, type and default are absent exactly when the block has none |
| Parser.VariablesInOrder | src/terraform/parser.rs:62-79 | one variable per block, in order |
| Parser.OutputsHaveNoValue | src/terraform/parser.rs:82-98 | no output carries a value, and its description is the block's own |
| Parser.OutputsInOrder | src/terraform/parser.rs:82-98 | one output per block, in order |
| Parser.ProviderVersion | src/terraform/parser.rs:178-195 | a provider block's own `version` wins, else the one given in required_providers |
| Parser.RequiredMapLast | src/terraform/parser.rs:198-218 | a name is in the required-providers map exactly when some entry has it, with the version of its last entry |
| Parser.BlockMapSpec | src/terraform/parser.rs:105-111 | a provider block's entry is keyed by its name and carries that provider's version |
| Parser.ProvidersOfSpec | src/terraform/parser.rs:101-123 | the names are those of the provider blocks and the required providers; a provider block is never replaced by a required entry of the same name |
| Parser.ParseProviders | src/terraform/parser.rs:101-123 | the two loops compute exactly that map |
| Workspace.ParseAction | src/terraform/workspace.rs:21-33 | parsing is case-insensitive, with create, switch and remove as aliases of new, select and delete, and an error exactly for any other word |
| Workspace.ParseActionName | src/terraform/workspace.rs:290-315 | every action's own word parses back to it |
| Workspace.ParseActionAliases | src/terraform/workspace.rs:290-315 | the three aliases parse as the test expects |
| Workspace.IsValidName | src/terraform/workspace.rs:276-283 | a name is valid exactly when it has 1 to 100 characters, each alphanumeric, '-' or '_' |
| Workspace.ValidNameExamples | src/terraform/workspace.rs:318-325 | the test's sample names are accepted or refused as it expects |
| Workspace.Entries | src/terraform/workspace.rs:100-118 | there is at most one entry per line |
| Workspace.EntriesCount | src/terraform/workspace.rs:100-118 | there is exactly one entry per non-blank line |
| Workspace.LastCurrent | src/terraform/workspace.rs:106-107 | the current workspace exists exactly when some entry is marked, and is the last marked one |
| Workspace.ParseList | src/terraform/workspace.rs:98-118 | the loop gives the entries of the lines, one per non-blank line, and the last marked one as current |
| Workspace.ReadEntry | src/terraform/workspace.rs:101-117 | one loop step appends the line's entry, none for a blank line, and keeps the current workspace the last marked one |
| Workspace.ListWorkspaces | src/terraform/workspace.rs:82-128 | a failed command is the error "Failed to list workspaces: " and stderr; otherwise the entries, the current workspace and "Found n workspaces" |
| Workspace.ShowResult | src/terraform/workspace.rs:131-154 | showing succeeds exactly when the command does, and reports the trimmed output as current |
| Workspace.NewWorkspace | src/terraform/workspace.rs:157-192 | an invalid name is refused before the command runs; otherwise success mirrors `workspace new` and the new workspace becomes current |
| Workspace.SelectWorkspace | src/terraform/workspace.rs:195-222 | success mirrors `workspace select`, the selected workspace becomes current, and a missing workspace is reported by name |
| Workspace.DeleteWorkspace | src/terraform/workspace.rs:225-273 | "default" is refused before anything runs; the selected workspace is refused after `workspace show`; a successful delete ran show and then delete |
| Workspace.ExecuteWorkspace | src/terraform/workspace.rs:54-79 | new, select and delete without a name fail before any command runs; each action runs its own operation and returns its result, list included |
| PromptBuilder.NewIsEmpty | src/prompts/builder.rs:25-34 | a fresh description holds only its summary, and both prompts are exactly that summary |
| PromptBuilder.ConstraintsKeepOrder | src/prompts/builder.rs:41-44 | chained `with_constraint` calls append in call order and touch nothing else |
| PromptBuilder.AppendsKeepEarlier | src/prompts/builder.rs:51-59 | a security note or example is appended at the end, and earlier entries keep their places |
| PromptBuilder.ErrorHintInsertsOrOverwrites | src/prompts/builder.rs:46-49 | the key then maps to the new hint, other keys keep theirs, and the number of hints grows exactly when the key was new |
| PromptBuilder.BuildPrompt | src/prompts/builder.rs:62-105 | the method builds exactly the prompt the specification function describes |
| PromptBuilder.AppendBullets | src/prompts/builder.rs:71-80 | the bullet loop appends one bullet per item, in order |
| PromptBuilder.AppendExamples | src/prompts/builder.rs:85-94 | the example loop appends the examples numbered from 1 in insertion order |
| PromptBuilder.AppendHints | src/prompts/builder.rs:99-101 | the hint loop appends one `**key**: hint` line per key, in the map's order |
| PromptBuilder.PromptStartsWithSummary | src/prompts/builder.rs:63 | the prompt always begins with the summary |
| PromptBuilder.PromptIsSummaryIffBare | src/prompts/builder.rs:62-105 | the prompt is exactly the summary when, and only when, every optional field is empty |
| PromptBuilder.SectionsIffSet | src/prompts/builder.rs:65-81 | each section appears exactly when its field is set, and opens with its header |
| PromptBuilder.ExampleNumbered | src/prompts/builder.rs:85-94 | the example at position k is rendered as example k + 1 |
| PromptBuilder.EveryHintListed | src/prompts/builder.rs:97-102 | every error hint is listed, whatever order the map yields its keys in |
| PromptBuilder.CompactShape | src/prompts/builder.rs:108-122 | the compact prompt begins with the summary and is only the summary when there are no constraints and no notes |
| PromptBuilder.CompactSingle | src/prompts/builder.rs:250-259 | a single constraint and a single note appear verbatim after their labels |
| PromptBuilder.ToolObjectFields | src/prompts/builder.rs:155-182 | the tool object carries the name, the rendered description and the input schema |
| PromptBuilder.ToolObjectOutputSchema | src/prompts/builder.rs:160-165 | the tool object has an output schema exactly when one was set |
| PromptBuilder.DefaultsAndOutputSchema | src/prompts/builder.rs:262-273 | a fresh tool has the default object input schema and no output schema, and setting one makes it appear |
| Client.ProviderStatus | src/registry/client.rs:585-604 | a success status passes; 404 is ProviderNotFound, 429 RateLimited, and any other failure an HttpError |
| Client.ModuleStatus | src/registry/client.rs:1269-1289 | a success status passes; 404 is ModuleNotFound, 429 RateLimited, and any other failure an HttpError |
| Client.SearchStatus | src/registry/client.rs:457-467 | a success status passes; 429 is RateLimited, and every other failure, 404 included, is an HttpError |
| Client.GetArr | src/registry/client.rs:505 | a field is read as an array exactly when it is present and an array |
| Client.GetU64 | src/registry/client.rs:553 | a number read as `u64` is below 2^64 |
| Client.StrOr | src/registry/client.rs:977-992 | a string field is read as it is, and a missing one as the default |
| Client.ProviderEntry | src/registry/client.rs:533-564 | an entry yields a provider exactly when it has a string `name`, with that name and the default's empty id and date |
| Client.ExtractProvidersSpec | src/registry/client.rs:533-564 | the providers extracted are exactly those of the entries with a string name |
| Client.DocEntry | src/registry/client.rs:969-1017 | missing strings read as empty, and an entry is kept exactly when its id or title is non-empty |
| Client.ExtractDocsSpec | src/registry/client.rs:969-1017 | every extracted document has an id or a title, and none survive exactly when no entry has either |
| Client.ModuleEntry | src/registry/client.rs:1173-1241 | an entry is kept exactly when its id is a non-empty string |
| Client.ExtractModulesSpec | src/registry/client.rs:1173-1241 | every extracted module has a non-empty id, and none survive exactly when every id is missing or empty |
| Client.SearchProvidersResult | src/registry/client.rs:448-530 | a success is never empty; a failure status is its status error; a typed reply gives its providers, or else its non-empty `data` |
| Client.ProviderInfoResult | src/registry/client.rs:567-674 | 404 and 429 give exactly their errors, a record comes back exactly when the reply succeeds with JSON, and the fallback fills the name and namespace asked for |
| Client.SelectLatestVersion | src/registry/client.rs:730-760 | a non-empty version list gives its first entry, and the only error is NoVersionsAvailable |
| Client.SelectLatestFromData | src/registry/client.rs:734-752 | with an empty list the answer is the first non-empty version in `data`, and NoVersionsAvailable exactly when there is none |
| Client.LatestVersionResult | src/registry/client.rs:677-798 | 404 and 429 give exactly their errors, and a typed reply selects its latest version |
| Client.SearchModulesResult | src/registry/client.rs:1091-1170 | a success is never empty; a typed reply with no modules is NoSearchResults; manually extracted modules have non-empty ids |
| Client.ModuleDetailsUrl | src/registry/client.rs:1251-1260 | the URL is the module's URL, followed by `/version` exactly when a version is given |
| Client.ModuleDetailsResult | src/registry/client.rs:1244-1376 | 404 and 429 give exactly their errors, a record comes back exactly when the reply succeeds with JSON, and the fallback fills the coordinates asked for |
| Client.ModuleVersionsResult | src/registry/client.rs:1379-1486 | 404 is ModuleNotFound; a success is never empty; typed versions are never empty strings; a JSON reply without versions is NoModuleVersionsAvailable |
| Client.LatestModuleVersion | src/registry/client.rs:1489-1512 | the details' version wins when non-empty, else the first listed version; errors are passed on, and an empty list is NoModuleVersionsAvailable |
| Client.LatestModuleVersionNonEmpty | src/registry/client.rs:1489-1512 | composed with the two requests, a latest module version from the typed paths is never empty |
| Client.FirstStopSpec | src/registry/client.rs:844-955 | the walk moves on exactly when every step does, and otherwise ends at the first step that stops |
| Client.DocsOf | src/registry/client.rs:887-910 | the documents are `data`, or when it is empty `docs` if present, else `documentation` |
| Client.DocsFallback | src/registry/client.rs:912-950 | without a typed body, the `data` array, then `docs`, then the body itself as an array; the first that yields documents wins |
| Client.DocsStep | src/registry/client.rs:846-955 | a transport failure or 429 ends the search with an error; 404, other failures and non-JSON bodies move on; a stop with documents is never empty |
| Client.SearchDocs | src/registry/client.rs:801-966 | the nested loops over URL patterns and parameter sets compute exactly the walk |
| Client.DocsWalkRateLimited | src/registry/client.rs:858-861 | a 429 on the first request ends the search at once |
| Client.DocsWalkExhausted | src/registry/client.rs:961-965 | the search ends with an empty list exactly when every request moved on |
| Client.DocsWalkFound | src/registry/client.rs:844-955 | any other success carries the documents of the first reply that had some, URL-major, every request before it having moved on |
| Client.ContentStep | src/registry/client.rs:1038-1080 | a transport failure or 429 ends with an error, other failures move on, and a body not blank once trimmed is the content |
| Client.GetDocContent | src/registry/client.rs:1020-1086 | the loop over the four content URLs computes exactly the walk |
| Client.ContentWalkSpec | src/registry/client.rs:1020-1086 | content comes only from a successful non-blank reply after every earlier pattern moved on, and DocumentationNotFound exactly when every pattern moved on |
| PlanAnalyzer.ActionsPair | src/terraform/plan_analyzer.rs:242-255 | a pair of actions is "replace" exactly when it is create and delete in either order, or joins with '_' to "replace" |
| PlanAnalyzer.ActionsToStringSamples | src/terraform/plan_analyzer.rs:465-472 | no actions are "no-op", one action is itself, and create/delete in either order is "replace", as the test expects |
| PlanAnalyzer.Count | src/terraform/plan_analyzer.rs:140-147 | a count never exceeds the number of entries |
| PlanAnalyzer.TallyTotal | src/terraform/plan_analyzer.rs:140-147 | each change raises at most one counter, so the counters add up to the changes less those without a counter |
| PlanAnalyzer.CountersOf | src/terraform/plan_analyzer.rs:140-147 | one counter per change, in order |
| PlanAnalyzer.SummarySnoc | src/terraform/plan_analyzer.rs:132-161 | one more change raises exactly its own counter |
| PlanAnalyzer.UnknownNotCounted | src/terraform/plan_analyzer.rs:133-146 | a change with no `change` record reads as "unknown" and is counted nowhere |
| PlanAnalyzer.SummaryBound | src/terraform/plan_analyzer.rs:131-147 | add, change, destroy, replace and no-op together never exceed the number of changes |
| PlanAnalyzer.SummariseChanges | src/terraform/plan_analyzer.rs:131-162 | the loop records one change per entry, in order, and the summary counts their actions |
| PlanAnalyzer.SumIncludes | src/terraform/plan_analyzer.rs:270-326 | every change contributes its points and its warnings to the assessment |
| PlanAnalyzer.SumAppend | src/terraform/plan_analyzer.rs:270-326 | assessing two runs of changes adds their points and concatenates their warnings |
| PlanAnalyzer.LevelOf | src/terraform/plan_analyzer.rs:343-348 | 0-10 is Low, 11-30 Medium, 31-60 High, and anything else, negative scores included, Critical |
| PlanAnalyzer.RecommendationsSpec | src/terraform/plan_analyzer.rs:328-341 | two recommendations for any destruction, one for any replacement and two for a score above 50, each exactly when its condition holds |
| PlanAnalyzer.CheckChange | src/terraform/plan_analyzer.rs:270-326 | the loop body gives exactly one change's points and warnings |
| PlanAnalyzer.AssessRisk | src/terraform/plan_analyzer.rs:258-356 | the method computes the base score from the summary, every change's checks in order, the level and the recommendations |
| PlanAnalyzer.MoreChangesNoLessRisk | src/terraform/plan_analyzer.rs:264-326 | more changes never lower the score, and the earlier warnings stay in front |
| PlanAnalyzer.LevelMonotone | src/terraform/plan_analyzer.rs:343-348 | a higher non-negative score never gives a lower level |
| PlanAnalyzer.EmptyPlanIsLow | src/terraform/plan_analyzer.rs:475-481 | an empty plan is Low with score 0 and nothing to say |
| PlanAnalyzer.HighRiskDeleteIsCritical | src/terraform/plan_analyzer.rs:270-283 | deleting a high-risk type makes the plan Critical with a warning starting "CRITICAL" |
| PlanAnalyzer.DbInstanceDeleteIsCritical | src/terraform/plan_analyzer.rs:503-520 | deleting an `aws_db_instance` is Critical on its own |
| PlanAnalyzer.WalkFinds | src/terraform/plan_analyzer.rs:423-452 | every string the walk finds looks like a resource address |
| PlanAnalyzer.ExtractReferencesSpec | src/terraform/plan_analyzer.rs:420-458 | the references are strictly increasing, are exactly the walk's finds, and are never the current address, a URL or a path |
| PlanAnalyzer.ReferencesDistinct | src/terraform/plan_analyzer.rs:455-456 | no reference appears twice |
| PlanAnalyzer.AffectedBy | src/terraform/plan_analyzer.rs:380-396 | a resource is affected by at most as many changes as there are |
| PlanAnalyzer.Affects | src/terraform/plan_analyzer.rs:398-405 | a resource affects at most as many changes as there are |
| PlanAnalyzer.ImpactOf | src/terraform/plan_analyzer.rs:377-413 | an impact is reported exactly for a change that is not "no-op" or "read" and has something in either list, under its own address |
| PlanAnalyzer.AddReferrer | src/terraform/plan_analyzer.rs:367-372 | the change's address is appended under each of its references and nowhere else |
| PlanAnalyzer.BuildRefMap | src/terraform/plan_analyzer.rs:364-374 | the map lists, under every address, the changes whose planned values refer to it, in change order |
| PlanAnalyzer.AnalyzeDependencies | src/terraform/plan_analyzer.rs:359-417 | the method reports exactly the impacts of the changes |
| PlanAnalyzer.NoSelfDependency | src/terraform/plan_analyzer.rs:380-405 | a resource's own address is in neither of its lists |
| PlanAnalyzer.ImpactsReported | src/terraform/plan_analyzer.rs:377-413 | every reported impact belongs to a change that is not "no-op" or "read" and has something to report |
| PlanAnalyzer.AnalyzePlan | src/terraform/plan_analyzer.rs:124-185 | the analysis holds the recorded changes and their summary, the assessment when asked for (otherwise Low, 0 and nothing), the impacts, and the plan's versions |
| Analyzer.FirstRule | src/terraform/analyzer.rs:55-168 | the chosen rule fires on the lower-cased type and no earlier rule does; none is chosen only when no rule fires |
| Analyzer.CategoryOfFirst | src/terraform/analyzer.rs:55-168 | the category is that of the first test, in source order, that the lower-cased type passes |
| Analyzer.CategoryOther | src/terraform/analyzer.rs:55-168 | "other" is returned exactly when none of the tests fires |
| Analyzer.RouteShadowsDns | src/terraform/analyzer.rs:59-66 | any type holding "route", including route53 types, is networking-core, so the DNS test at 130-134 never sees a route53 type |
| Analyzer.VpcIsNetworkingCore | src/terraform/analyzer.rs:59-66 | aws_vpc is networking-core, as the category test expects |
| Analyzer.SubnetIsNetworkingCore | src/terraform/analyzer.rs:59-66 | aws_subnet is networking-core |
| Analyzer.InstanceIsCompute | src/terraform/analyzer.rs:84-88 | aws_instance passes none of the five earlier tests and is compute |
| Analyzer.BucketIsStorage | src/terraform/analyzer.rs:97-98 | aws_s3_bucket passes none of the seven earlier tests and is storage |
| Analyzer.SecurityGroupIsNetworkingSecurity | src/terraform/analyzer.rs:68-69 | aws_security_group escapes the core test and is networking-security |
| Analyzer.VpnGatewayIsNetworkingConnectivity | src/terraform/analyzer.rs:71-72 | aws_vpn_gateway escapes the first two tests and is networking-connectivity |
| Analyzer.NeverLogging | src/terraform/analyzer.rs:368 | no resource type is ever classified "logging", so the monitoring/logging pair can never relate two groups |
| Analyzer.DeepestIsMax | src/terraform/analyzer.rs:217-222 | the depth bounds the '/' count of every local module source and equals one of them, and is 0 exactly when no source is local |
| Analyzer.TotalsOf | src/terraform/analyzer.rs:210-224 | the accumulated hierarchy depth is the deepest local source over all files |
| Analyzer.DefaultCount | src/terraform/analyzer.rs:226-230 | the variables with a default are at most all the variables |
| Analyzer.CalculateMetrics | src/terraform/analyzer.rs:194-259 | the loop over the files yields the metrics function, whose depth is the deepest local source and whose undocumented count is at most the variable count |
| Analyzer.ScanFile | src/terraform/analyzer.rs:211-223 | one file adds its data sources, locals, module calls and lines, and the inner loop raises the depth to that file's deepest local source |
| Analyzer.AddToGroups | src/terraform/analyzer.rs:266-272 | filing one resource adds at most one group |
| Analyzer.AddToGroupsNames | src/terraform/analyzer.rs:268-271 | filing one resource under a category adds that category's name and no other |
| Analyzer.AddToGroupsDistinct | src/terraform/analyzer.rs:268-271 | the group names stay distinct, as the keys of the grouping map are |
| Analyzer.AddToGroupsFit | src/terraform/analyzer.rs:268-271 | every type stays in the group of its own category |
| Analyzer.AddToGroupsCount | src/terraform/analyzer.rs:268-281 | the resource counts of the groups grow by exactly one |
| Analyzer.GroupsPartition | src/terraform/analyzer.rs:264-284 | the groups have distinct names, each type sits in its category's group, and the counts add up to the number of resources |
| Analyzer.GroupsNamed | src/terraform/analyzer.rs:264-284 | a name is a group's exactly when some resource has that category |
| Analyzer.RelatedSymmetric | src/terraform/analyzer.rs:361-383 | relatedness ignores the order of the two names and holds only for exactly two names |
| Analyzer.ClassifyByCount | src/terraform/analyzer.rs:290-350 | 0 or 1 groups are functional, 2 sequential or communicational by relatedness, 3-4 logical, 5 or more coincidental; the score lies in 25..100, is 100 only without groups, and never rises with more groups |
| Analyzer.AnalyzeCohesion | src/terraform/analyzer.rs:262-358 | the loop builds the category grouping, and the class and score are judged from the number of groups |
| Analyzer.DependencyKindLocal | src/terraform/analyzer.rs:407-416 | a source is "local" exactly when it starts with "./" or "../", and a public-registry source never does |
| Analyzer.DependenciesOf | src/terraform/analyzer.rs:406-424 | one dependency per module source, in order, from the project directory to that source with no variables passed |
| Analyzer.CoupleRules | src/terraform/analyzer.rs:427-468 | control coupling exactly when more than 10 conditionals or more than 5 variables per resource; data coupling exactly when no threshold is crossed; stamp exactly when the score is 50 or 60 |
| Analyzer.AnalyzeCoupling | src/terraform/analyzer.rs:386-476 | the loop collects the module sources of all files and counts their count/for_each constructs; class and score follow the thresholds |
| Analyzer.VariableIssues | src/terraform/analyzer.rs:489-511 | the variable check raises at most one issue |
| Analyzer.DetectIssues | src/terraform/analyzer.rs:479-625 | the checks run in source order and their issues are appended in that order |
| Analyzer.CheckDependencies | src/terraform/analyzer.rs:565-578 | the loop appends one issue per public-registry dependency, in order |
| Analyzer.CheckConditionals | src/terraform/analyzer.rs:581-598 | the loop appends one issue per file with more than five count/for_each matches |
| Analyzer.CheckFileNames | src/terraform/analyzer.rs:601-611 | the loop appends one issue per file named main.tf when the module has more than five resources |
| Analyzer.Having | src/terraform/analyzer.rs:672-675 | filtering by category keeps only issues of that category and never grows the list |
| Analyzer.HavingIssues | src/terraform/analyzer.rs:479-625 | filtering the issue list by category filters each check's issues, in order |
| Analyzer.PublicIssuesOnePerDependency | src/terraform/analyzer.rs:565-578 | each public-registry dependency gives exactly one PublicModuleRisk warning |
| Analyzer.ExcessiveVariablesRule | src/terraform/analyzer.rs:489-511 | ExcessiveVariables is Critical from 50 variables, a Warning from 30 to 49, and absent below 30 |
| Analyzer.ExcessiveVariablesOnly | src/terraform/analyzer.rs:489-511 | no other check raises ExcessiveVariables |
| Analyzer.DeepHierarchyRule | src/terraform/analyzer.rs:528-539 | DeepHierarchy is raised once exactly when the depth exceeds 2 |
| Analyzer.DeepHierarchyOnly | src/terraform/analyzer.rs:528-539 | no other check raises DeepHierarchy |
| Analyzer.MissingDocumentationRule | src/terraform/analyzer.rs:541-562 | MissingDocumentation is raised once, as Info, exactly when there are variables and fewer than 80% carry a description |
| Analyzer.MissingDocumentationOnly | src/terraform/analyzer.rs:541-562 | no other check raises MissingDocumentation |
| Analyzer.LogicalCohesionRule | src/terraform/analyzer.rs:514-525 | LogicalCohesion is raised once for more than five resource types and once more, last and carrying the cohesion explanation, for a cohesion score under 50 (614-622) |
| Analyzer.LogicalCohesionOnly | src/terraform/analyzer.rs:514-622 | the LogicalCohesion issues are exactly those of the type check and the cohesion check |
| Analyzer.PublicModuleRiskRule | src/terraform/analyzer.rs:565-578 | the PublicModuleRisk issues are one warning per public-registry dependency, in dependency order |
| Analyzer.HavingCounts | src/terraform/analyzer.rs:672-676 | the filtered count is positive exactly when some issue has the category |
| Analyzer.RecommendationCount | src/terraform/analyzer.rs:628-690 | at most six recommendations, one per condition |
| Analyzer.HealthyIffNoIssues | src/terraform/analyzer.rs:683-687 | the "healthy" recommendation appears exactly when there are no issues |
| Analyzer.WrapIffPublicModule | src/terraform/analyzer.rs:671-680 | the wrapper recommendation appears exactly when some issue is a PublicModuleRisk |
| Analyzer.VariableAndDepthAdvice | src/terraform/analyzer.rs:636-669 | reducing variables is advised exactly above 20 variables, flattening exactly above depth 2 |
| Analyzer.SplitAndDescribeAdvice | src/terraform/analyzer.rs:644-662 | splitting is advised exactly for more than three groups, naming them in order; descriptions exactly when one is missing, with that count |
| Analyzer.Clamp | src/terraform/analyzer.rs:731 | the result lies in 0..100 and equals the input when it already does |
| Analyzer.CalculateHealthScore | src/terraform/analyzer.rs:693-732 | the loop deducts 15, 5 or 1 per issue by severity; the score is the clamped total of all deductions from 100 |
| Analyzer.MoreIssuesLowerScore | src/terraform/analyzer.rs:717-723 | more issues never raise the score, and each costs at least one point before clamping |
| Analyzer.ThresholdsDisagree | src/terraform/analyzer.rs:489-705 | at exactly 50 variables detection raises a Critical issue while the score deducts only the 15 points of "more than 30" |
| Analyzer.AnalyzeModuleHealth | src/terraform/analyzer.rs:171-191 | the report is the metrics, cohesion, coupling, issues, recommendations and score, each as its own function defines it, with the score at most 100 |
| DependencyGraph.NodesOf | src/terraform/analyzer.rs:746-758 | one node per resource, in order, with the "type.name" address, type, name, file and the project directory |
| DependencyGraph.KnownIdsSpec | src/terraform/analyzer.rs:743-748 | an address is in the lookup table exactly when some resource has it |
| DependencyGraph.NodeIdsKnown | src/terraform/analyzer.rs:746-748 | every node's address is in the lookup table |
| DependencyGraph.IdsOf | src/terraform/analyzer.rs:820-823 | the boundary lists every node's address, in node order |
| DependencyGraph.StripBrackets | src/terraform/analyzer.rs:766 | the trimmed entry is no longer than the original and has no bracket at either end |
| DependencyGraph.FirstDeclaredSpec | src/terraform/analyzer.rs:770-780 | the source of an explicit edge is the first node whose `resource "T"` header occurs in the file, and there is none exactly when no node's header occurs |
| DependencyGraph.AddImplicit | src/terraform/analyzer.rs:798-811 | after adding, an implicit edge with those ends is present |
| DependencyGraph.ExplicitEdgeShape | src/terraform/analyzer.rs:767-777 | an explicit edge joins two known addresses and is labelled depends_on |
| DependencyGraph.GraphWellFormed | src/terraform/analyzer.rs:735-830 | every edge joins two nodes, explicit edges carry depends_on, implicit edges are neither self-loops nor duplicated |
| DependencyGraph.GraphNodes | src/terraform/analyzer.rs:746-823 | every resource is a node, in order, and the single boundary is the project directory |
| DependencyGraph.ReferencesRecorded | src/terraform/analyzer.rs:786-816 | a reference in a file to a known resource yields an implicit edge to it from every other resource declared in that file |
| DependencyGraph.BuildDependencyGraph | src/terraform/analyzer.rs:735-830 | the loops build exactly the graph function, whose properties the lemmas above state |
| DependencyGraph.BuildNodes | src/terraform/analyzer.rs:743-758 | the loop yields the nodes and the address table of the resources |
| DependencyGraph.FindDeclaring | src/terraform/analyzer.rs:770-780 | the loop stops at the first node whose resource header the file contains |
| DependencyGraph.AddExplicitEdges | src/terraform/analyzer.rs:763-783 | the depends_on lists of one file append their explicit edges, list by list and entry by entry |
| DependencyGraph.AddEntryEdges | src/terraform/analyzer.rs:765-782 | the entries of one list append their edges in order |
| DependencyGraph.EdgeForEntry | src/terraform/analyzer.rs:766-781 | an entry yields an edge only when its trimmed address is known and some node is declared in the file |
| DependencyGraph.AddReferenceEdges | src/terraform/analyzer.rs:786-816 | the references of one file add their implicit edges in order |
| DependencyGraph.AddResourceEdges | src/terraform/analyzer.rs:793-814 | each other resource of the file gains an implicit edge to the reference unless one exists |
| DependencyGraph.ImplicitEdgeExists | src/terraform/analyzer.rs:798-802 | the search answers whether an implicit edge with those ends is present |
| Refactoring.AffectedBySpec | src/terraform/analyzer.rs:843-848 | an address is affected exactly when a resource of one of the group's types has it |
| Refactoring.ModuleDirFor | src/terraform/analyzer.rs:860 | the proposed directory is "modules/" followed by the group name with no hyphen left, of the same length |
| Refactoring.SuggestRefactoring | src/terraform/analyzer.rs:833-964 | the suggestions are extractions (only with more than two groups), wrappers, descriptions and flattening, as the suggestion function defines them |
| Refactoring.SuggestExtractions | src/terraform/analyzer.rs:841-876 | the loop over the groups yields exactly the extraction suggestions |
| Refactoring.SuggestWrappers | src/terraform/analyzer.rs:880-908 | the loop appends one wrapper suggestion per public-registry dependency |
| Refactoring.ExtractAllSound | src/terraform/analyzer.rs:841-876 | every extraction is for a group of at least two resources and lists exactly that group's matching resources, never none |
| Refactoring.ExtractAllComplete | src/terraform/analyzer.rs:841-876 | every group with at least two resources and a matching resource is extracted |
| Refactoring.WrappersPerDependency | src/terraform/analyzer.rs:880-908 | one wrapper per public-registry dependency, in order, naming that address, with directory "modules/" and its last path segment |
| Refactoring.SuggestionOrder | src/terraform/analyzer.rs:833-964 | extractions come before wrappers, wrappers before descriptions, descriptions before flattening |
| Refactoring.DescribeAndFlattenIff | src/terraform/analyzer.rs:911-961 | a description suggestion exactly when some variable lacks a description, a flattening one exactly above depth 2 |
| Refactoring.DescriptionsListUndocumented | src/terraform/analyzer.rs:912-932 | the description suggestion lists exactly the undocumented variables and states their count, as Info |
| Sorting.SortDedupSpec | src/terraform/plan_analyzer.rs:455-456 | `sort` then `dedup` leaves a strictly ascending sequence holding exactly the input's elements |

## Left out

- **Outside effects.** Running the Terraform CLI, HTTP requests, file and directory reading, the environment and the MCP transport are not modelled. Each is an input of the operation that uses it, as listed above.
- **Concurrency.** The `tokio` locks and `join_all` are modelled sequentially. `join_all` keeps request order, so the results are the same.
- **Floating point.** Three float comparisons are restated in integers:
  - the 0.8 description ratio (5·documented < 4·total);
  - the variables-per-resource ratio (variables > 5·resources);
  - the module percentage in the state health checks.

  Float-valued fields are left out: the coupling explanation's ratio, percentages printed in messages, cache hit rates and batch throughput.
- **Integer widths.** `i32`/`usize` overflow of scores and counts is not modelled; integers are unbounded. Rust's `/` on the non-negative score terms is modelled as truncating division.
- **HashMap iteration order.** Where the source iterates a `HashMap`, the order is an input or a set:
  - the analyser's files are a sequence given in the map's order;
  - cohesion groups are built in first-appearance order;
  - the prompt's troubleshooting hints come in the order of an `order` argument;
  - JSON pretty-printing is a `pretty` argument;
  - `parse_providers` returns its map rather than `into_values()` order;
  - `analyze_state`'s provider and type tables (`provider_map.into_values()`, `type_map.into_values()`, src/terraform/state_analyzer.rs:217-221) are sorted by count from the order each provider or type was first seen (StateAnalyzer.AnalyzeState); the sort is stable, so rows with equal counts may come out in another order in the source;
  - `parse_dot_output`'s nodes (`node_map.into_values()`, src/terraform/graph.rs:178) are taken in the order their ids were first inserted (Graph.NodesInOrder, Graph.ParseDotOutput); the order-free facts are Graph.DotNodes and "each id once".
- **Regex engine.** The patterns of the analyser and the HCL parser are not modelled; their captures and match counts are inputs (`FileScan`, `Matches`).
- **Unicode.** `to_lowercase`, `is_alphanumeric` and whitespace are restricted to ASCII.
- **Message texts.** Issue messages, recommendations, suggestion descriptions and migration steps are datatypes (IssueMessage, Advice, Description, MigrationPlan). IssueText, AdviceText, DescriptionText and PlanSteps render them to the source's text, and the properties are stated on the datatypes, not on the rendered strings. The static tool-description contents (CommonConstraints, CommonErrorHints, CommonSecurityNotes) are listed as data but carry no contract. Client.StatusError writes "HTTP " and the status code only, where `format!("HTTP {}", status)` also prints the reason phrase ("HTTP 500 Internal Server Error"). Analyzer.CouplingAnalysis carries the coupling type and score but not the `explanation` text (src/terraform/analyzer.rs:433-474); the control-coupling branch prints the float variables-per-resource ratio with one decimal, and the other three branches are fixed sentences with a count.
- Graph.CalculateMaxDepth: The worklist walk of `calculate_max_depth` carries a `fuel` step budget and a `finished` flag that says whether the walk ended by itself. On a cycle reachable from a root the source never stops, which CycleUnbounded states; the model does not loop forever.
- DependencyGraph.FirstDeclaredSpec: The source of an explicit edge is the first node whose `resource "T"` header occurs anywhere in the file, as the source does, not the resource that holds the `depends_on`.
- **Providers.** `get_provider_requirements` only reads the directory; its scanner `extract_provider_requirements` is modelled. `parse_lock_file` takes the lock file's state (missing, unreadable or its text) as an input.
- **PlanAnalyzer.** `parse_plan_json` is serde; the plan arrives parsed. Its line-by-line fallback for newline-delimited JSON (src/terraform/plan_analyzer.rs:187-239) is not part of this model.
- Fallback.RegistryClientWithFallback.SearchDocsWithFallback: requires an explicit namespace or a non-empty fallback list. The only constructor sets three fallbacks (src/registry/fallback.rs:28-32), but the field is public, and with it emptied the source panics at src/registry/fallback.rs:229 whenever the walk is exhausted: `unwrap_or` evaluates `fallback_namespaces[0]` even when a namespace is given. That panic is not modelled.
- Batch.FetchInChunks, Batch.BatchFetcher.FetchProviders, Batch.BatchFetcher.FetchProviderVersions and Batch.BatchFetcher.FetchMultipleDocs: require `max_concurrent >= 1`. The constructor clamps it into [1, 10] (src/registry/batch.rs:15-21), but the field is public, and with it set to 0 `chunks(0)` panics (src/registry/batch.rs:36, 114, 181). That panic is not modelled.
- Graph.EdgeOfLine, Graph.DotEdges, Graph.ReadLine, Graph.ParseDotOutput, Graph.GenerateGraph: they read edges with `parse_edge_line` as written (Graph.ParseEdgeLineAsWritten), so they drop "[root] …" targets and cut `provider["…"]` targets to "provider", as the source does (Graph.DotDropsRootEdge, Graph.DotCutsProviderEdge). The corrected reading (Graph.ParseEdgeLine) is proved on its own and is not wired into the reading loop.
- **Security.** `load_security_policy`, `log_audit_entry`, `create_audit_entry` and `validate_directory` read the environment or write files, and are not part of this model.
- **Client.** serde deserialisation and the `#[serde(flatten)]` extra fields are not modelled; deserialisation is a function returning a value or serde's message.

## Findings

| source | as written | input that shows it | evidently intended | confidence | as-written member | corrected member |
|---|---|---|---|---|---|---|
| src/terraform/taint.rs:130 | `major >= 1 && minor >= 5` decides the deprecation warning | Terraform "2.0": major 2, minor 0, no warning | every version from 1.5 on warns, i.e. (major, minor) >= (1, 5) | not executed | Taint.DeprecationMissedFor20 | Taint.WarnsForMonotone |
| src/shared/security.rs:194-201 | a `**/x` pattern whose tail holds a `*` is matched as a literal suffix of the path | `/app/secret.tfvars` against the default pattern `**/*secret*` is not blocked | the tail is a glob on the last path segment, so any file whose name contains "secret" is blocked | not executed | Security.SecretFileMissed | Security.CorrectedBlocksSecretFiles |
| src/terraform/graph.rs:198 | the edge target is cut at its first `[` | `"a" -> "provider[\"registry.terraform.io/hashicorp/aws\"]"` gives target `provider` and a reference edge; `"x" -> "[root] y"` is dropped | only a trailing attribute list (from " [" on) is cut, so provider edges are typed Provider and "[root]" targets survive | not executed | Graph.ProviderTargetTruncated | Graph.ParseEdgeLine |
