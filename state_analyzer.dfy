/**
 * State analysis (src/terraform/state_analyzer.rs): the resources of a
 * parsed `terraform show -json` state are expanded into one entry per
 * instance, counted per provider and per type, checked by the drift
 * heuristics and summarised by the health checks.  Parsing the state text
 * (serde) is not part of this model, and `format!("{}", index_key)` of a
 * JSON value is the `render` argument.
 */
module StateAnalyzer {
  import opened Wrappers
  import opened Json
  import opened Strs

  datatype ProviderStats = ProviderStats(name: string, resourceCount: nat, resourceTypes: seq<string>)

  datatype TypeStats = TypeStats(resourceType: string, count: nat, addresses: seq<string>)

  datatype DriftType = Modified | Deleted | Orphaned | ConfigurationDrift

  datatype DriftResult = DriftResult(address: string, resourceType: string, driftType: DriftType, details: Option<string>)

  datatype HealthStatus = Healthy | Warning | Critical

  datatype HealthCheck = HealthCheck(name: string, status: HealthStatus, message: string)

  datatype StateResource = StateResource(
    address: string,
    resourceType: string,
    provider: string,
    moduleName: Option<string>,
    tainted: bool,
    attributes: Option<Json>)

  /** One entry of an instance list in the state. */
  datatype StateInstance = StateInstance(attributes: Option<Json>, status: Option<string>, indexKey: Option<Json>)

  /** One entry of the state's `resources`. */
  datatype StateResourceJson = StateResourceJson(
    resourceType: string,
    name: string,
    provider: string,
    moduleName: Option<string>,
    instances: Option<seq<StateInstance>>)

  /** The parsed state. */
  datatype TerraformState = TerraformState(
    version: Option<int>,
    terraformVersion: Option<string>,
    serial: Option<int>,
    resources: Option<seq<StateResourceJson>>)

  datatype StateAnalysis = StateAnalysis(
    totalResources: nat,
    providers: seq<ProviderStats>,
    types: seq<TypeStats>,
    resources: seq<StateResource>,
    driftResults: seq<DriftResult>,
    healthChecks: seq<HealthCheck>,
    stateVersion: Option<int>,
    terraformVersion: Option<string>,
    serial: Option<int>)

  // ---------------------------------------------------------------------
  // Addresses and provider names
  // ---------------------------------------------------------------------

  function BareAddress(resourceType: string, name: string): string {
    resourceType + "." + name
  }

  /** `format_address`: "m.type.name" under a non-empty module, "type.name" otherwise. */
  function FormatAddress(moduleName: Option<string>, resourceType: string, name: string): string {
    if moduleName.Some? && |moduleName.value| > 0 then moduleName.value + "." + BareAddress(resourceType, name)
    else BareAddress(resourceType, name)
  }

  /**
   * Every address ends with "." and the name; under a non-empty module it
   * is the module, a '.', and the bare address.
   */
  lemma FormatAddressSpec(moduleName: Option<string>, resourceType: string, name: string)
    ensures EndsWith(FormatAddress(moduleName, resourceType, name), "." + name)
    ensures moduleName.Some? && |moduleName.value| > 0 ==>
      StartsWith(FormatAddress(moduleName, resourceType, name), moduleName.value + ".")
      && FormatAddress(moduleName, resourceType, name)[|moduleName.value| + 1..] == BareAddress(resourceType, name)
    ensures !(moduleName.Some? && |moduleName.value| > 0) ==>
      FormatAddress(moduleName, resourceType, name) == BareAddress(resourceType, name)
  {
    var bare := BareAddress(resourceType, name);
    var r := FormatAddress(moduleName, resourceType, name);
    assert bare[|bare| - |"." + name|..] == "." + name;
    if moduleName.Some? && |moduleName.value| > 0 {
      assert r == (moduleName.value + ".") + bare;
      assert r[..|moduleName.value + "."|] == moduleName.value + ".";
      assert r[|r| - |"." + name|..] == "." + name;
    }
  }

  /** A bare address splits back into its type and name when neither holds a '.'. */
  lemma BareAddressSplits(resourceType: string, name: string)
    requires '.' !in resourceType && '.' !in name
    ensures Split(BareAddress(resourceType, name), ".") == [resourceType, name]
  {
    SplitConcatChar(resourceType, name, '.');
    CharContains(resourceType, '.');
    CharContains(name, '.');
    SplitNoSep(resourceType, ".");
    SplitNoSep(name, ".");
  }

  /**
   * `extract_provider_name`: without a '/', the string itself; otherwise
   * its last '/'-segment with trailing ']' and then trailing '"' removed.
   */
  function ExtractProviderName(provider: string): (r: string)
    ensures '/' !in provider ==> r == provider
    ensures '/' !in r
  {
    if '/' in provider then
      var last := LastPart(provider, "/");
      LastPartNoSep(provider, "/");
      CharContains(last, '/');
      var r := TrimEndMatches(TrimEndMatches(last, ']'), '"');
      assert r == last[..|r|];
      r
    else provider
  }

  /**
   * The provider address in the state, `provider["<host>/<namespace>/<name>"]`,
   * gives back the name.
   */
  lemma ProviderNameOfAddress(prefix: string, name: string)
    requires '/' !in name && (|name| == 0 || name[|name| - 1] != '"')
    ensures ExtractProviderName(prefix + "/" + name + "\"]") == name
  {
    var tail := name + "\"]";
    var s := prefix + "/" + name + "\"]";
    assert s == prefix + ['/'] + tail;
    assert '/' in s by { assert s[|prefix|] == '/'; }
    LastPartJoin(prefix, tail, '/');
    assert '/' !in tail;
    CharContains(tail, '/');
    LastPartNone(tail, "/");
    assert tail[..|tail| - 1] == name + "\"";
    assert TrimEndMatches(tail, ']') == name + "\"";
    assert (name + "\"")[..|name|] == name;
    assert TrimEndMatches(name + "\"", '"') == name;
  }

  // ---------------------------------------------------------------------
  // One entry per instance
  // ---------------------------------------------------------------------

  /**
   * The address of instance `idx` of `count`: the resource's address when
   * it has a single instance, else that address followed by the rendered
   * index key, or by the position when there is no key, in brackets.
   */
  function InstanceAddress(res: StateResourceJson, idx: nat, count: nat, inst: StateInstance,
                           render: Json -> string): (r: string)
    ensures count == 1 ==> r == FormatAddress(res.moduleName, res.resourceType, res.name)
    ensures count != 1 ==>
      StartsWith(r, FormatAddress(res.moduleName, res.resourceType, res.name) + "[") && EndsWith(r, "]")
  {
    var base := FormatAddress(res.moduleName, res.resourceType, res.name);
    if count == 1 then base
    else
      var key := if inst.indexKey.Some? then render(inst.indexKey.value) else NatToString(idx);
      var r := base + "[" + key + "]";
      assert r[..|base + "["|] == base + "[";
      assert r[|r| - 1..] == "]";
      r
  }

  predicate IsTainted(inst: StateInstance) {
    inst.status == Some("tainted")
  }

  /** The entry recorded for instance `idx` of `res`. */
  function InstanceEntry(res: StateResourceJson, idx: nat, count: nat, inst: StateInstance,
                         render: Json -> string): StateResource
  {
    StateResource(InstanceAddress(res, idx, count, inst, render), res.resourceType,
                  ExtractProviderName(res.provider), res.moduleName, IsTainted(inst), inst.attributes)
  }

  /** The entries of all the instances of one resource, in order. */
  function Expand(res: StateResourceJson, render: Json -> string): (r: seq<StateResource>)
    ensures res.instances.None? ==> r == []
    ensures res.instances.Some? ==> |r| == |res.instances.value|
    ensures res.instances.Some? ==> forall i :: 0 <= i < |r| ==>
      r[i] == InstanceEntry(res, i, |res.instances.value|, res.instances.value[i], render)
  {
    if res.instances.None? then []
    else
      var insts := res.instances.value;
      seq(|insts|, i requires 0 <= i < |insts| => InstanceEntry(res, i, |insts|, insts[i], render))
  }

  lemma ExpandStep(res: StateResourceJson, render: Json -> string, j: nat)
    requires res.instances.Some? && j < |res.instances.value|
    ensures var insts := res.instances.value;
      Expand(res, render)[..j + 1] ==
      Expand(res, render)[..j] + [InstanceEntry(res, j, |insts|, insts[j], render)]
  {
    var r := Expand(res, render);
    assert r[..j + 1] == r[..j] + [r[j]];
  }

  lemma SnocAssoc<T>(a: seq<T>, b: seq<T>, x: T)
    ensures (a + b) + [x] == a + (b + [x])
  {
  }

  /** The type filter: a resource is kept when its type contains the filter text. */
  predicate Kept(res: StateResourceJson, filter: Option<string>) {
    filter.None? || Contains(res.resourceType, filter.value)
  }

  /** The entries of every kept resource, resource by resource. */
  function ExpandAll(rs: seq<StateResourceJson>, filter: Option<string>, render: Json -> string): seq<StateResource> {
    if |rs| == 0 then []
    else
      var last := rs[|rs| - 1];
      ExpandAll(rs[..|rs| - 1], filter, render) + (if Kept(last, filter) then Expand(last, render) else [])
  }

  lemma ExpandAllSnoc(rs: seq<StateResourceJson>, i: nat, filter: Option<string>, render: Json -> string)
    requires i < |rs|
    ensures ExpandAll(rs[..i + 1], filter, render) ==
      ExpandAll(rs[..i], filter, render) + (if Kept(rs[i], filter) then Expand(rs[i], render) else [])
  {
    assert rs[..i + 1][..i] == rs[..i];
  }

  /**
   * Every entry comes from a kept resource: its type contains the filter,
   * it carries that resource's type and provider name, and it is tainted
   * exactly when its instance's status is "tainted".
   */
  lemma {:induction false} ExpandAllFrom(rs: seq<StateResourceJson>, filter: Option<string>, render: Json -> string,
                                         e: StateResource)
    requires e in ExpandAll(rs, filter, render)
    ensures filter.Some? ==> Contains(e.resourceType, filter.value)
    ensures exists k, j :: (0 <= k < |rs| && Kept(rs[k], filter) && rs[k].instances.Some?
      && 0 <= j < |rs[k].instances.value| && e.resourceType == rs[k].resourceType
      && e.provider == ExtractProviderName(rs[k].provider)
      && (e.tainted <==> rs[k].instances.value[j].status == Some("tainted")))
  {
    var init := rs[..|rs| - 1];
    var last := rs[|rs| - 1];
    if e in ExpandAll(init, filter, render) {
      ExpandAllFrom(init, filter, render, e);
      var k, j :| 0 <= k < |init| && Kept(init[k], filter) && init[k].instances.Some?
        && 0 <= j < |init[k].instances.value| && e.resourceType == init[k].resourceType
        && e.provider == ExtractProviderName(init[k].provider)
        && (e.tainted <==> init[k].instances.value[j].status == Some("tainted"));
      assert rs[k] == init[k];
    } else {
      assert ExpandAll(rs, filter, render)
        == ExpandAll(init, filter, render) + (if Kept(last, filter) then Expand(last, render) else []);
      assert Kept(last, filter) && last.instances.Some?;
      var insts := last.instances.value;
      var j :| 0 <= j < |Expand(last, render)| && Expand(last, render)[j] == e;
      assert e == InstanceEntry(last, j, |insts|, insts[j], render);
      var k := |rs| - 1;
      assert rs[k] == last;
      assert 0 <= k < |rs| && Kept(rs[k], filter) && rs[k].instances.Some?
        && 0 <= j < |rs[k].instances.value| && e.resourceType == rs[k].resourceType
        && e.provider == ExtractProviderName(rs[k].provider)
        && (e.tainted <==> rs[k].instances.value[j].status == Some("tainted"));
    }
  }

  /** How many entries the resources expand to: the instance counts of the kept ones. */
  function InstanceCount(rs: seq<StateResourceJson>, filter: Option<string>): nat {
    if |rs| == 0 then 0
    else
      var last := rs[|rs| - 1];
      InstanceCount(rs[..|rs| - 1], filter)
      + (if Kept(last, filter) && last.instances.Some? then |last.instances.value| else 0)
  }

  lemma {:induction false} ExpandAllLength(rs: seq<StateResourceJson>, filter: Option<string>, render: Json -> string)
    ensures |ExpandAll(rs, filter, render)| == InstanceCount(rs, filter)
  {
    if |rs| > 0 {
      ExpandAllLength(rs[..|rs| - 1], filter, render);
    }
  }

  // ---------------------------------------------------------------------
  // Per-provider and per-type tables
  // ---------------------------------------------------------------------

  predicate Distinct(xs: seq<string>) {
    forall i, j :: 0 <= i < j < |xs| ==> xs[i] != xs[j]
  }

  function ProviderCount(p: ProviderStats): nat {
    p.resourceCount
  }

  /** The provider map's `entry(name).or_insert_with(..)`, then one more resource of type `rtype`. */
  function AddProvider(table: seq<ProviderStats>, name: string, rtype: string): seq<ProviderStats> {
    if |table| == 0 then [ProviderStats(name, 1, [rtype])]
    else if table[0].name == name then
      var p := table[0];
      [ProviderStats(p.name, p.resourceCount + 1,
                     if rtype in p.resourceTypes then p.resourceTypes else p.resourceTypes + [rtype])] + table[1..]
    else [table[0]] + AddProvider(table[1..], name, rtype)
  }

  predicate HasProvider(table: seq<ProviderStats>, name: string) {
    exists i :: 0 <= i < |table| && table[i].name == name
  }

  predicate DistinctProviders(table: seq<ProviderStats>) {
    forall i, j :: 0 <= i < j < |table| ==> table[i].name != table[j].name
  }

  predicate TypesDistinct(table: seq<ProviderStats>) {
    forall i :: 0 <= i < |table| ==> Distinct(table[i].resourceTypes)
  }

  /** One resource more: the counts grow by one. */
  lemma {:induction false} AddProviderSum(table: seq<ProviderStats>, name: string, rtype: string)
    ensures SumBy(AddProvider(table, name, rtype), ProviderCount) == SumBy(table, ProviderCount) + 1
  {
    var r := AddProvider(table, name, rtype);
    if |table| > 0 && table[0].name == name {
      assert r[1..] == table[1..];
    } else if |table| > 0 {
      AddProviderSum(table[1..], name, rtype);
      assert r[1..] == AddProvider(table[1..], name, rtype);
    }
  }

  /** The names after adding are the names before and `name`. */
  lemma {:induction false} AddProviderNames(table: seq<ProviderStats>, name: string, rtype: string, x: string)
    ensures HasProvider(AddProvider(table, name, rtype), x) <==> HasProvider(table, x) || x == name
  {
    var r := AddProvider(table, name, rtype);
    if |table| == 0 {
      assert r[0].name == name;
    } else if table[0].name == name {
      assert forall i :: 0 < i < |r| ==> r[i] == table[i];
      assert r[0].name == table[0].name;
    } else {
      var rest := table[1..];
      AddProviderNames(rest, name, rtype, x);
      HasProviderCons(table[0], AddProvider(rest, name, rtype), x);
      assert table == [table[0]] + rest;
      HasProviderCons(table[0], rest, x);
    }
  }

  /** A name is in a table with a first row exactly when it is that row's or in the remaining rows. */
  lemma HasProviderCons(head: ProviderStats, tail: seq<ProviderStats>, x: string)
    ensures HasProvider([head] + tail, x) <==> head.name == x || HasProvider(tail, x)
  {
    var t := [head] + tail;
    assert t[0] == head;
    if HasProvider(tail, x) {
      var i :| 0 <= i < |tail| && tail[i].name == x;
      assert t[i + 1].name == x;
    }
    if HasProvider(t, x) && head.name != x {
      var i :| 0 <= i < |t| && t[i].name == x;
      assert tail[i - 1].name == x;
    }
  }

  /** Adding keeps one row per name. */
  lemma {:induction false} AddProviderDistinct(table: seq<ProviderStats>, name: string, rtype: string)
    requires DistinctProviders(table)
    ensures DistinctProviders(AddProvider(table, name, rtype))
  {
    var r := AddProvider(table, name, rtype);
    if |table| > 0 && table[0].name == name {
      assert forall i :: 0 < i < |r| ==> r[i] == table[i];
    } else if |table| > 0 {
      var rest := table[1..];
      var rr := AddProvider(rest, name, rtype);
      AddProviderDistinct(rest, name, rtype);
      assert r == [table[0]] + rr;
      forall j | 0 < j < |r|
        ensures r[0].name != r[j].name
      {
        var x := rr[j - 1].name;
        assert HasProvider(rr, x);
        AddProviderNames(rest, name, rtype, x);
        if x != name {
          var i :| 0 <= i < |rest| && rest[i].name == x;
          assert table[i + 1].name == x;
        }
      }
    }
  }

  /** Adding lists no type twice under a provider. */
  lemma {:induction false} AddProviderTypes(table: seq<ProviderStats>, name: string, rtype: string)
    requires TypesDistinct(table)
    ensures TypesDistinct(AddProvider(table, name, rtype))
  {
    var r := AddProvider(table, name, rtype);
    if |table| > 0 && table[0].name == name {
      assert forall i :: 0 < i < |r| ==> r[i] == table[i];
      assert Distinct(table[0].resourceTypes);
    } else if |table| > 0 {
      AddProviderTypes(table[1..], name, rtype);
      assert r == [table[0]] + AddProvider(table[1..], name, rtype);
    }
  }

  /** The provider map after the given entries, in first-seen order. */
  function ProviderTable(rs: seq<StateResource>): seq<ProviderStats> {
    if |rs| == 0 then []
    else
      var last := rs[|rs| - 1];
      AddProvider(ProviderTable(rs[..|rs| - 1]), last.provider, last.resourceType)
  }

  /**
   * The provider counts add up to the number of entries, there is exactly
   * one row per provider name that occurs, and no row lists a type twice.
   */
  lemma {:induction false} ProviderTableSpec(rs: seq<StateResource>)
    ensures SumBy(ProviderTable(rs), ProviderCount) == |rs|
    ensures forall x :: HasProvider(ProviderTable(rs), x) <==> exists k :: 0 <= k < |rs| && rs[k].provider == x
    ensures DistinctProviders(ProviderTable(rs))
    ensures TypesDistinct(ProviderTable(rs))
  {
    if |rs| > 0 {
      var init := rs[..|rs| - 1];
      var last := rs[|rs| - 1];
      ProviderTableSpec(init);
      AddProviderSum(ProviderTable(init), last.provider, last.resourceType);
      AddProviderDistinct(ProviderTable(init), last.provider, last.resourceType);
      AddProviderTypes(ProviderTable(init), last.provider, last.resourceType);
      forall x
        ensures HasProvider(ProviderTable(rs), x) <==> exists k :: 0 <= k < |rs| && rs[k].provider == x
      {
        AddProviderNames(ProviderTable(init), last.provider, last.resourceType, x);
        if exists k :: 0 <= k < |rs| && rs[k].provider == x {
          var k :| 0 <= k < |rs| && rs[k].provider == x;
          if k < |init| {
            assert init[k].provider == x;
          }
        }
        if exists k :: 0 <= k < |init| && init[k].provider == x {
          var k :| 0 <= k < |init| && init[k].provider == x;
          assert rs[k].provider == x;
        }
      }
    }
  }

  function TypeCount(t: TypeStats): nat {
    t.count
  }

  /** The type map's entry for `rtype`, counted once more with `address` appended. */
  function AddType(table: seq<TypeStats>, rtype: string, address: string): seq<TypeStats> {
    if |table| == 0 then [TypeStats(rtype, 1, [address])]
    else if table[0].resourceType == rtype then
      [TypeStats(rtype, table[0].count + 1, table[0].addresses + [address])] + table[1..]
    else [table[0]] + AddType(table[1..], rtype, address)
  }

  predicate CountsAddresses(table: seq<TypeStats>) {
    forall i :: 0 <= i < |table| ==> table[i].count == |table[i].addresses|
  }

  lemma {:induction false} AddTypeSpec(table: seq<TypeStats>, rtype: string, address: string)
    requires CountsAddresses(table)
    ensures SumBy(AddType(table, rtype, address), TypeCount) == SumBy(table, TypeCount) + 1
    ensures CountsAddresses(AddType(table, rtype, address))
  {
    if |table| > 0 && table[0].resourceType != rtype {
      AddTypeSpec(table[1..], rtype, address);
      assert AddType(table, rtype, address)[1..] == AddType(table[1..], rtype, address);
    } else if |table| > 0 {
      assert AddType(table, rtype, address)[1..] == table[1..];
    }
  }

  /** The type map after the given entries, in first-seen order. */
  function TypeTable(rs: seq<StateResource>): seq<TypeStats> {
    if |rs| == 0 then []
    else
      var last := rs[|rs| - 1];
      AddType(TypeTable(rs[..|rs| - 1]), last.resourceType, last.address)
  }

  /** The type counts add up to the number of entries, and each count is the number of its addresses. */
  lemma {:induction false} TypeTableSpec(rs: seq<StateResource>)
    ensures SumBy(TypeTable(rs), TypeCount) == |rs|
    ensures CountsAddresses(TypeTable(rs))
  {
    if |rs| > 0 {
      var init := rs[..|rs| - 1];
      TypeTableSpec(init);
      AddTypeSpec(TypeTable(init), rs[|rs| - 1].resourceType, rs[|rs| - 1].address);
    }
  }

  // ---------------------------------------------------------------------
  // Sorting by count, largest first
  // ---------------------------------------------------------------------

  /** Stable insertion: `x` goes after every item whose key is at least its own. */
  function InsertDesc<T>(xs: seq<T>, x: T, key: T -> nat): seq<T> {
    if |xs| == 0 then [x]
    else if key(xs[0]) < key(x) then [x] + xs
    else [xs[0]] + InsertDesc(xs[1..], x, key)
  }

  /** `sort_by(|a, b| key(b).cmp(&key(a)))`, a stable sort into descending order of the key. */
  function SortDesc<T>(xs: seq<T>, key: T -> nat): seq<T> {
    if |xs| == 0 then [] else InsertDesc(SortDesc(xs[..|xs| - 1], key), xs[|xs| - 1], key)
  }

  predicate SortedDesc<T>(xs: seq<T>, key: T -> nat) {
    forall i, j :: 0 <= i < j < |xs| ==> key(xs[i]) >= key(xs[j])
  }

  lemma {:induction false} InsertDescPerm<T>(xs: seq<T>, x: T, key: T -> nat)
    ensures multiset(InsertDesc(xs, x, key)) == multiset(xs) + multiset{x}
  {
    if |xs| > 0 && key(xs[0]) >= key(x) {
      InsertDescPerm(xs[1..], x, key);
      assert xs == [xs[0]] + xs[1..];
    }
  }

  lemma {:induction false} InsertDescSorted<T>(xs: seq<T>, x: T, key: T -> nat)
    requires SortedDesc(xs, key)
    ensures SortedDesc(InsertDesc(xs, x, key), key)
  {
    if |xs| > 0 && key(xs[0]) >= key(x) {
      var rest := xs[1..];
      InsertDescSorted(rest, x, key);
      InsertDescBounded(rest, x, key, key(xs[0]));
      var rr := InsertDesc(rest, x, key);
      assert InsertDesc(xs, x, key) == [xs[0]] + rr;
    }
  }

  /** Inserting an item no heavier than `k` into items no heavier than `k` keeps every item no heavier than `k`. */
  lemma {:induction false} InsertDescBounded<T>(xs: seq<T>, x: T, key: T -> nat, k: nat)
    requires forall i :: 0 <= i < |xs| ==> key(xs[i]) <= k
    requires key(x) <= k
    ensures forall i :: 0 <= i < |InsertDesc(xs, x, key)| ==> key(InsertDesc(xs, x, key)[i]) <= k
  {
    if |xs| > 0 && key(xs[0]) >= key(x) {
      InsertDescBounded(xs[1..], x, key, k);
      assert InsertDesc(xs, x, key) == [xs[0]] + InsertDesc(xs[1..], x, key);
    }
  }

  /** The sorted list is in descending order of the key and holds exactly the same items. */
  lemma {:induction false} SortDescSpec<T>(xs: seq<T>, key: T -> nat)
    ensures SortedDesc(SortDesc(xs, key), key)
    ensures multiset(SortDesc(xs, key)) == multiset(xs)
  {
    if |xs| > 0 {
      var init := xs[..|xs| - 1];
      SortDescSpec(init, key);
      InsertDescSorted(SortDesc(init, key), xs[|xs| - 1], key);
      InsertDescPerm(SortDesc(init, key), xs[|xs| - 1], key);
      assert xs == init + [xs[|xs| - 1]];
    }
  }

  lemma {:induction false} InsertDescSum<T>(xs: seq<T>, x: T, key: T -> nat, f: T -> nat)
    ensures SumBy(InsertDesc(xs, x, key), f) == SumBy(xs, f) + f(x)
  {
    if |xs| > 0 && key(xs[0]) >= key(x) {
      InsertDescSum(xs[1..], x, key, f);
      assert InsertDesc(xs, x, key)[1..] == InsertDesc(xs[1..], x, key);
    } else if |xs| > 0 {
      assert ([x] + xs)[1..] == xs;
    }
  }

  /** Sorting changes no sum. */
  lemma {:induction false} SortDescSum<T>(xs: seq<T>, key: T -> nat, f: T -> nat)
    ensures SumBy(SortDesc(xs, key), f) == SumBy(xs, f)
  {
    if |xs| > 0 {
      var init := xs[..|xs| - 1];
      SortDescSum(init, key, f);
      InsertDescSum(SortDesc(init, key), xs[|xs| - 1], key, f);
      SumByAppend(init, [xs[|xs| - 1]], f);
      assert init + [xs[|xs| - 1]] == xs;
      assert SumBy([xs[|xs| - 1]], f) == f(xs[|xs| - 1]) + SumBy([xs[|xs| - 1]][1..], f);
    }
  }

  // ---------------------------------------------------------------------
  // Drift heuristics
  // ---------------------------------------------------------------------

  const TaintedDetail := "Resource is marked as tainted"
  const NoAttributesDetail := "Resource has no attributes in state"
  const StaleDataDetail := "Data source may have stale data - run refresh to update"

  predicate IsDataSource(r: StateResource) {
    StartsWith(r.resourceType, "data.")
  }

  /** The drift results of one entry: tainted, then missing attributes, then data source. */
  function EntryDrift(r: StateResource): seq<DriftResult> {
    (if r.tainted then [DriftResult(r.address, r.resourceType, Modified, Some(TaintedDetail))] else [])
    + (if r.attributes.None? then [DriftResult(r.address, r.resourceType, ConfigurationDrift, Some(NoAttributesDetail))] else [])
    + (if IsDataSource(r) then [DriftResult(r.address, r.resourceType, ConfigurationDrift, Some(StaleDataDetail))] else [])
  }

  function DriftOf(rs: seq<StateResource>): seq<DriftResult> {
    if |rs| == 0 then [] else DriftOf(rs[..|rs| - 1]) + EntryDrift(rs[|rs| - 1])
  }

  /** `detect_drift_issues`: the three checks on every entry, in order. */
  method DetectDriftIssues(rs: seq<StateResource>) returns (results: seq<DriftResult>)
    ensures results == DriftOf(rs)
  {
    results := [];
    var i := 0;
    while i < |rs|
      invariant 0 <= i <= |rs|
      invariant results == DriftOf(rs[..i])
    {
      results := ReadDrift(results, rs[i]);
      assert rs[..i + 1][..i] == rs[..i];
      i := i + 1;
    }
    assert rs[..i] == rs;
  }

  /** The body of `detect_drift_issues`' loop: the three checks on one entry. */
  method ReadDrift(before: seq<DriftResult>, r: StateResource) returns (results: seq<DriftResult>)
    ensures results == before + EntryDrift(r)
  {
    results := before;
    if r.tainted {
      results := results + [DriftResult(r.address, r.resourceType, Modified, Some(TaintedDetail))];
    }
    if r.attributes.None? {
      results := results + [DriftResult(r.address, r.resourceType, ConfigurationDrift, Some(NoAttributesDetail))];
    }
    if IsDataSource(r) {
      results := results + [DriftResult(r.address, r.resourceType, ConfigurationDrift, Some(StaleDataDetail))];
    }
  }

  /** An entry yields at most three results. */
  lemma {:induction false} DriftBound(rs: seq<StateResource>)
    ensures |DriftOf(rs)| <= 3 * |rs|
  {
    if |rs| > 0 {
      DriftBound(rs[..|rs| - 1]);
    }
  }

  /** There is a Modified result for an address exactly when an entry with that address is tainted. */
  lemma {:induction false} ModifiedIffTainted(rs: seq<StateResource>, address: string)
    ensures (exists d :: d in DriftOf(rs) && d.driftType == Modified && d.address == address) <==>
            (exists r :: r in rs && r.tainted && r.address == address)
  {
    if |rs| > 0 {
      var init := rs[..|rs| - 1];
      var last := rs[|rs| - 1];
      ModifiedIffTainted(init, address);
      assert rs == init + [last];
      if exists r :: r in rs && r.tainted && r.address == address {
        var r :| r in rs && r.tainted && r.address == address;
        if r == last {
          var d := DriftResult(r.address, r.resourceType, Modified, Some(TaintedDetail));
          assert d in EntryDrift(last);
          assert d in DriftOf(rs);
        }
      }
    }
  }

  /**
   * There is a ConfigurationDrift result for an address exactly when an
   * entry with that address has no attributes or is a data source.
   */
  lemma {:induction false} ConfigurationDriftIff(rs: seq<StateResource>, address: string)
    ensures (exists d :: d in DriftOf(rs) && d.driftType == ConfigurationDrift && d.address == address) <==>
            (exists r :: r in rs && (r.attributes.None? || IsDataSource(r)) && r.address == address)
  {
    if |rs| > 0 {
      var init := rs[..|rs| - 1];
      var last := rs[|rs| - 1];
      ConfigurationDriftIff(init, address);
      assert rs == init + [last];
      if exists r :: r in rs && (r.attributes.None? || IsDataSource(r)) && r.address == address {
        var r :| r in rs && (r.attributes.None? || IsDataSource(r)) && r.address == address;
        if r == last {
          var d := if r.attributes.None?
            then DriftResult(r.address, r.resourceType, ConfigurationDrift, Some(NoAttributesDetail))
            else DriftResult(r.address, r.resourceType, ConfigurationDrift, Some(StaleDataDetail));
          assert d in EntryDrift(last);
          assert d in DriftOf(rs);
        }
      }
    }
  }

  // ---------------------------------------------------------------------
  // Health checks
  // ---------------------------------------------------------------------

  const StateNotEmpty := "state_not_empty"
  const NoTaintedResources := "no_tainted_resources"
  const ModuleUsage := "module_usage"
  const ProviderCountCheck := "provider_count"

  function TaintedCount(rs: seq<StateResource>): (n: nat)
    ensures n <= |rs|
    ensures n == 0 <==> forall r :: r in rs ==> !r.tainted
  {
    if |rs| == 0 then 0
    else
      var n := TaintedCount(rs[..|rs| - 1]);
      assert forall r :: r in rs <==> r in rs[..|rs| - 1] || r == rs[|rs| - 1];
      n + (if rs[|rs| - 1].tainted then 1 else 0)
  }

  function ModuleCount(rs: seq<StateResource>): (n: nat)
    ensures n <= |rs|
    ensures n == 0 <==> forall r :: r in rs ==> r.moduleName.None?
  {
    if |rs| == 0 then 0
    else
      var n := ModuleCount(rs[..|rs| - 1]);
      assert forall r :: r in rs <==> r in rs[..|rs| - 1] || r == rs[|rs| - 1];
      n + (if rs[|rs| - 1].moduleName.Some? then 1 else 0)
  }

  const EmptyStateText := "State is empty - no resources are being managed"
  const StateContainsText := "State contains "
  const ResourcesText := " resources"
  const TaintedFoundText := " tainted resources found - they will be recreated on next apply"
  const NoTaintedText := "No tainted resources found"
  const OnlyText := "Only "
  const FewModulesText := "% of resources are in modules - consider modularizing"
  const ManyModulesText := "% of resources are organized in modules"
  const ManyProvidersText := " providers in use - consider if all are necessary"
  const ProvidersText := " providers in use"

  function StateNotEmptyCheck(total: nat): HealthCheck {
    if total == 0 then HealthCheck(StateNotEmpty, Warning, EmptyStateText)
    else HealthCheck(StateNotEmpty, Healthy, StateContainsText + NatToString(total) + ResourcesText)
  }

  function TaintedCheck(tainted: nat): HealthCheck {
    if tainted > 0 then HealthCheck(NoTaintedResources, Warning, NatToString(tainted) + TaintedFoundText)
    else HealthCheck(NoTaintedResources, Healthy, NoTaintedText)
  }

  /** Below half of the resources in modules (percentage < 50) is a warning. */
  function ModuleUsageCheck(inModules: nat, total: nat): HealthCheck
    requires total > 0
  {
    var percent := NatToString(RoundedPercent(inModules, total));
    if 2 * inModules < total then HealthCheck(ModuleUsage, Warning, OnlyText + percent + FewModulesText)
    else HealthCheck(ModuleUsage, Healthy, percent + ManyModulesText)
  }

  function ProviderCheck(providers: nat): HealthCheck {
    if providers > 5 then HealthCheck(ProviderCountCheck, Warning, NatToString(providers) + ManyProvidersText)
    else HealthCheck(ProviderCountCheck, Healthy, NatToString(providers) + ProvidersText)
  }

  /** `run_health_checks`, given the entries and the number of distinct providers. */
  function HealthChecks(rs: seq<StateResource>, providers: nat): seq<HealthCheck> {
    var inModules := ModuleCount(rs);
    [StateNotEmptyCheck(|rs|), TaintedCheck(TaintedCount(rs))]
    + (if inModules > 0 && |rs| > 10 then [ModuleUsageCheck(inModules, |rs|)] else [])
    + [ProviderCheck(providers)]
  }

  function CheckNames(checks: seq<HealthCheck>): (r: seq<string>)
    ensures |r| == |checks|
    ensures forall i :: 0 <= i < |checks| ==> r[i] == checks[i].name
  {
    seq(|checks|, i requires 0 <= i < |checks| => checks[i].name)
  }

  /**
   * The checks always include state_not_empty, no_tainted_resources and
   * provider_count, with module_usage before the last exactly when some
   * entry is in a module and there are more than ten.
   */
  lemma HealthCheckNames(rs: seq<StateResource>, providers: nat)
    ensures CheckNames(HealthChecks(rs, providers)) ==
      [StateNotEmpty, NoTaintedResources]
      + (if (exists r :: r in rs && r.moduleName.Some?) && |rs| > 10 then [ModuleUsage] else [])
      + [ProviderCountCheck]
  {
    var checks := HealthChecks(rs, providers);
    var usage := ModuleCount(rs) > 0 && |rs| > 10;
    assert usage <==> (exists r :: r in rs && r.moduleName.Some?) && |rs| > 10;
    var a, b, d := StateNotEmptyCheck(|rs|), TaintedCheck(TaintedCount(rs)), ProviderCheck(providers);
    assert a.name == StateNotEmpty && b.name == NoTaintedResources && d.name == ProviderCountCheck;
    if usage {
      var m := ModuleUsageCheck(ModuleCount(rs), |rs|);
      assert m.name == ModuleUsage;
      assert checks == [a, b, m, d];
    } else {
      assert checks == [a, b, d];
    }
  }

  /**
   * Each check warns exactly on its condition: an empty state, a tainted
   * entry, more than five providers, and fewer than half of the entries in
   * modules.
   */
  lemma HealthCheckWarnings(rs: seq<StateResource>, providers: nat)
    ensures HealthChecks(rs, providers)[0].status == Warning <==> |rs| == 0
    ensures HealthChecks(rs, providers)[1].status == Warning <==> exists r :: r in rs && r.tainted
    ensures var checks := HealthChecks(rs, providers);
      checks[|checks| - 1].status == Warning <==> providers > 5
    ensures ModuleCount(rs) > 0 && |rs| > 10 ==>
      (HealthChecks(rs, providers)[2].status == Warning <==> 2 * ModuleCount(rs) < |rs|)
  {
  }

  /** No check is ever Critical. */
  lemma HealthChecksNeverCritical(rs: seq<StateResource>, providers: nat)
    ensures forall c :: c in HealthChecks(rs, providers) ==> c.status != Critical
  {
    var checks := HealthChecks(rs, providers);
    var a, b, d := StateNotEmptyCheck(|rs|), TaintedCheck(TaintedCount(rs)), ProviderCheck(providers);
    if ModuleCount(rs) > 0 && |rs| > 10 {
      assert checks == [a, b, ModuleUsageCheck(ModuleCount(rs), |rs|), d];
    } else {
      assert checks == [a, b, d];
    }
  }

  // ---------------------------------------------------------------------
  // analyze_state
  // ---------------------------------------------------------------------

  function EntriesOf(state: TerraformState): seq<StateResourceJson> {
    if state.resources.Some? then state.resources.value else []
  }

  lemma EntryStep(rs: seq<StateResource>, e: StateResource)
    ensures ProviderTable(rs + [e]) == AddProvider(ProviderTable(rs), e.provider, e.resourceType)
    ensures TypeTable(rs + [e]) == AddType(TypeTable(rs), e.resourceType, e.address)
  {
    assert (rs + [e])[..|rs|] == rs;
  }

  /**
   * The instance loop of `analyze_state` for one kept resource: an entry
   * per instance, each counted under its provider and its type.
   */
  method AddInstances(res: StateResourceJson, render: Json -> string, resources: seq<StateResource>,
                      providerTable: seq<ProviderStats>, typeTable: seq<TypeStats>)
    returns (resources': seq<StateResource>, providerTable': seq<ProviderStats>, typeTable': seq<TypeStats>)
    requires res.instances.Some?
    requires providerTable == ProviderTable(resources) && typeTable == TypeTable(resources)
    ensures resources' == resources + Expand(res, render)
    ensures providerTable' == ProviderTable(resources') && typeTable' == TypeTable(resources')
  {
    var instances := res.instances.value;
    ghost var expanded := Expand(res, render);
    resources', providerTable', typeTable' := resources, providerTable, typeTable;
    var j := 0;
    while j < |instances|
      invariant 0 <= j <= |instances|
      invariant resources' == resources + expanded[..j]
      invariant providerTable' == ProviderTable(resources') && typeTable' == TypeTable(resources')
    {
      var entry := InstanceEntry(res, j, |instances|, instances[j], render);
      EntryStep(resources', entry);
      providerTable' := AddProvider(providerTable', entry.provider, entry.resourceType);
      typeTable' := AddType(typeTable', entry.resourceType, entry.address);
      ExpandStep(res, render, j);
      SnocAssoc(resources, expanded[..j], entry);
      resources' := resources' + [entry];
      j := j + 1;
    }
    assert expanded[..j] == expanded;
  }

  /**
   * `analyze_state` on a parsed state: the entries of every kept resource,
   * the provider and type tables sorted by count, the drift results when
   * asked for, the health checks, and the state's versions.
   */
  method AnalyzeState(state: TerraformState, filter: Option<string>, detectDrift: bool, render: Json -> string)
    returns (a: StateAnalysis)
    ensures a.resources == ExpandAll(EntriesOf(state), filter, render)
    ensures a.totalResources == |a.resources|
    ensures a.providers == SortDesc(ProviderTable(a.resources), ProviderCount)
    ensures a.types == SortDesc(TypeTable(a.resources), TypeCount)
    ensures a.driftResults == (if detectDrift then DriftOf(a.resources) else [])
    ensures a.healthChecks == HealthChecks(a.resources, |ProviderTable(a.resources)|)
    ensures a.stateVersion == state.version && a.terraformVersion == state.terraformVersion && a.serial == state.serial
  {
    var rs := EntriesOf(state);
    var resources: seq<StateResource> := [];
    var providerTable: seq<ProviderStats> := [];
    var typeTable: seq<TypeStats> := [];
    var i := 0;
    while i < |rs|
      invariant 0 <= i <= |rs|
      invariant resources == ExpandAll(rs[..i], filter, render)
      invariant providerTable == ProviderTable(resources)
      invariant typeTable == TypeTable(resources)
    {
      var res := rs[i];
      ExpandAllSnoc(rs, i, filter, render);
      if filter.Some? && !Contains(res.resourceType, filter.value) {
        i := i + 1;
        continue;
      }
      if res.instances.Some? {
        resources, providerTable, typeTable := AddInstances(res, render, resources, providerTable, typeTable);
      }
      i := i + 1;
    }
    assert rs[..i] == rs;
    var driftResults: seq<DriftResult> := [];
    if detectDrift {
      driftResults := DetectDriftIssues(resources);
    }
    var healthChecks := HealthChecks(resources, |providerTable|);
    a := StateAnalysis(|resources|, SortDesc(providerTable, ProviderCount), SortDesc(typeTable, TypeCount),
                       resources, driftResults, healthChecks, state.version, state.terraformVersion, state.serial);
  }

  /**
   * The aggregation of an analysis: both sorted tables add up to the
   * total, are in descending order of count, have one row per provider
   * name, and list no resource type twice under a provider.
   */
  lemma AnalysisTables(resources: seq<StateResource>)
    ensures var providers := SortDesc(ProviderTable(resources), ProviderCount);
      SumBy(providers, ProviderCount) == |resources|
      && SortedDesc(providers, ProviderCount)
      && multiset(providers) == multiset(ProviderTable(resources))
      && DistinctProviders(ProviderTable(resources))
      && (forall p :: p in providers ==> Distinct(p.resourceTypes))
    ensures var types := SortDesc(TypeTable(resources), TypeCount);
      SumBy(types, TypeCount) == |resources|
      && SortedDesc(types, TypeCount)
      && (forall t :: t in types ==> t.count == |t.addresses|)
  {
    var pt := ProviderTable(resources);
    var tt := TypeTable(resources);
    ProviderTableSpec(resources);
    TypeTableSpec(resources);
    SortDescSpec(pt, ProviderCount);
    SortDescSum(pt, ProviderCount, ProviderCount);
    SortDescSpec(tt, TypeCount);
    SortDescSum(tt, TypeCount, TypeCount);
    forall p | p in SortDesc(pt, ProviderCount)
      ensures Distinct(p.resourceTypes)
    {
      assert p in multiset(pt);
      var k :| 0 <= k < |pt| && pt[k] == p;
    }
    forall t | t in SortDesc(tt, TypeCount)
      ensures t.count == |t.addresses|
    {
      assert t in multiset(tt);
      var k :| 0 <= k < |tt| && tt[k] == t;
    }
  }
}
