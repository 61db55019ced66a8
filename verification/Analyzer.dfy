/** The state analyzer: instance counts, breakdowns, and the fold of the 0.11 layout
    (resources under modules[], keyed by address) into the v4 one. Starts from decoded
    documents. */
module Analyzer {
  import opened Collections
  import opened Names

  /** An instance, with its index_key as printed, if it has one. */
  datatype Instance = Instance(indexKey: Option<string>)

  datatype Resource = Resource(path: string, mode: string, kind: string, name: string, provider: string, instances: seq<Instance>)

  /** primary is None when absent or the JSON null. */
  datatype LegacyResource = LegacyResource(kind: string, provider: string, primary: Option<Instance>, deposed: seq<Instance>)

  datatype LegacyModule = LegacyModule(path: seq<string>, resources: map<string, LegacyResource>)

  datatype State = State(version: int, terraformVersion: string, serial: int, lineage: string,
                         resources: seq<Resource>, modules: seq<LegacyModule>)

  datatype Tag = Tag(key: string, count: int)

  datatype Analysis = Analysis(terraformVersion: string, formatVersion: int, serial: int, lineage: string,
                               total: int, managed: int, data: int, nulls: int, rum: int,
                               kinds: seq<Tag>, providers: seq<Tag>, modules: seq<Tag>)

  // ---------------------------------------------------------------- the legacy fold

  function FoldEntry(m: LegacyModule, key: string): Resource
    requires key in m.resources
  {
    var rv := m.resources[key];
    var kind := if rv.kind == "" then LegacyTypeFromKey(key) else rv.kind;
    Resource(LegacyModuleField(m.path), LegacyMode(key), kind, LegacyResourceName(key, kind), rv.provider,
             (if rv.primary.Some? then [rv.primary.value] else []) + rv.deposed)
  }

  function FoldKeys(m: LegacyModule, keys: seq<string>): seq<Resource>
    requires forall k :: k in keys ==> k in m.resources
  {
    if keys == [] then [] else FoldKeys(m, keys[..|keys| - 1]) + [FoldEntry(m, keys[|keys| - 1])]
  }

  ghost function SortedKeys<V(!new)>(m: map<string, V>): (ks: seq<string>)
    ensures Lists(ks, m.Keys) && forall k :: k in ks <==> k in m
  {
    var ks := Sort(Less, ListingOf(m.Keys));
    ListingMembers(ks, m.Keys);
    ks
  }

  ghost function FoldModule(m: LegacyModule): seq<Resource> {
    FoldKeys(m, SortedKeys(m.resources))
  }

  ghost function Fold(ms: seq<LegacyModule>): seq<Resource> {
    if ms == [] then [] else Fold(ms[..|ms| - 1]) + FoldModule(ms[|ms| - 1])
  }

  ghost function Normalized(s: State): State {
    if s.resources != [] || s.modules == [] then s else s.(resources := Fold(s.modules))
  }

  /** Keys come out of the map in any order; sorting them makes the result one. */
  method SortKeys<V(!new)>(m: map<string, V>) returns (keys: seq<string>)
    ensures keys == SortedKeys(m)
  {
    var rest := m.Keys;
    keys := [];
    while rest != {}
      invariant rest <= m.Keys && multiset(keys) + multiset(rest) == multiset(m.Keys)
    {
      var k :| k in rest;
      keys, rest := keys + [k], rest - {k};
    }
    LessIsStrictOrder();
    SortIgnoresOrder(Less, keys, ListingOf(m.Keys));
    keys := Sort(Less, keys);
  }

  lemma FoldKeysMore(m: LegacyModule, keys: seq<string>, j: nat)
    requires j < |keys| && forall k :: k in keys ==> k in m.resources
    ensures FoldKeys(m, keys[..j + 1]) == FoldKeys(m, keys[..j]) + [FoldEntry(m, keys[j])]
  {
    assert keys[..j + 1][..j] == keys[..j];
  }

  method FoldOneModule(m: LegacyModule) returns (folded: seq<Resource>)
    ensures folded == FoldModule(m)
  {
    var keys := SortKeys(m.resources);
    folded := [];
    for j := 0 to |keys|
      invariant folded == FoldKeys(m, keys[..j])
    {
      FoldKeysMore(m, keys, j);
      folded := folded + [FoldEntry(m, keys[j])];
    }
    assert keys[..|keys|] == keys;
  }

  method NormalizeLegacy(s: State) returns (r: State)
    ensures r == Normalized(s)
  {
    if s.resources != [] || s.modules == [] {
      return s;
    }
    var resources := [];
    for i := 0 to |s.modules|
      invariant resources == Fold(s.modules[..i])
    {
      var folded := FoldOneModule(s.modules[i]);
      assert s.modules[..i + 1][..i] == s.modules[..i];
      resources := resources + folded;
    }
    assert s.modules[..|s.modules|] == s.modules;
    r := s.(resources := resources);
  }

  // ---------------------------------------------------------------- counting

  function AllOf(r: Resource): int { |r.instances| }
  function DataOf(r: Resource): int { if r.mode == "data" then |r.instances| else 0 }
  function ManagedOf(r: Resource): int { if r.mode == "data" then 0 else |r.instances| }
  function NullOf(r: Resource): int {
    if r.kind == "null_resource" || r.kind == "terraform_data" then ManagedOf(r) else 0
  }

  datatype Facet = ByKind | ByProvider | ByModule

  function Label(f: Facet, r: Resource): string {
    match f
    case ByKind => r.kind
    case ByProvider => NormalizeProvider(r.provider, r.kind)
    case ByModule => ModuleLabel(r.path)
  }

  /** One of the three counter maps after the loop over rs. */
  function Tally(f: Facet, rs: seq<Resource>): map<string, int> {
    if rs == [] then map[] else
      var m, r := Tally(f, rs[..|rs| - 1]), rs[|rs| - 1];
      if ManagedOf(r) == 0 then m else Bump(m, Label(f, r), ManagedOf(r))
  }

  predicate TagLess(a: Tag, b: Tag) {
    a.count > b.count || (a.count == b.count && Less(a.key, b.key))
  }

  ghost function TagsOf(m: map<string, int>): set<Tag> {
    set k | k in m :: Tag(k, m[k])
  }

  /** A counter map as the sorted list the API returns. */
  ghost predicate IsBreakdown(out: seq<Tag>, m: map<string, int>) {
    Lists(out, TagsOf(m)) && Sorted(TagLess, out)
  }

  ghost function Breakdown(m: map<string, int>): seq<Tag> {
    Sort(TagLess, ListingOf(TagsOf(m)))
  }

  lemma TagLessIsStrictOrder()
    ensures StrictOrder(TagLess)
  {
    LessIsStrictOrder();
  }

  /** There is one such list, whatever order the map was read in. */
  lemma BreakdownIsUnique(out: seq<Tag>, m: map<string, int>)
    ensures IsBreakdown(out, m) <==> out == Breakdown(m)
  {
    TagLessIsStrictOrder();
    BreakdownIsOne(m);
    if IsBreakdown(out, m) {
      SortedUnique(TagLess, out, Breakdown(m));
    }
  }

  lemma BreakdownIsOne(m: map<string, int>)
    ensures IsBreakdown(Breakdown(m), m)
  {
    TagLessIsStrictOrder();
    StrictIsWeak(TagLess);
    SortSorts(TagLess, ListingOf(TagsOf(m)));
  }

  lemma TagMember(m: map<string, int>, t: Tag)
    ensures t in TagsOf(m) <==> t.key in m && t.count == m[t.key]
  {
    assert t == Tag(t.key, t.count);
  }

  lemma TagsOfRemove(m: map<string, int>, k: string)
    requires k in m
    ensures TagsOf(m - {k}) == TagsOf(m) - {Tag(k, m[k])} && Tag(k, m[k]) in TagsOf(m)
  {
    forall t ensures t in TagsOf(m - {k}) <==> t in TagsOf(m) && t != Tag(k, m[k]) {
      TagMember(m, t);
      TagMember(m - {k}, t);
    }
  }

  lemma TagsOfMore(m: map<string, int>, rest: set<string>, k: string)
    requires k in m && k in rest
    ensures multiset(TagsOf(m - (rest - {k}))) == multiset(TagsOf(m - rest)) + multiset{Tag(k, m[k])}
  {
    var more := m - (rest - {k});
    assert more - {k} == m - rest;
    TagsOfRemove(more, k);
    assert TagsOf(more) == TagsOf(m - rest) + {Tag(k, m[k])};
  }

  method SortedCounts(m: map<string, int>) returns (out: seq<Tag>)
    ensures out == Breakdown(m)
  {
    var rest := m.Keys;
    out := [];
    while rest != {}
      invariant rest <= m.Keys
      invariant Lists(out, TagsOf(m - rest))
    {
      var k :| k in rest;
      TagsOfMore(m, rest, k);
      out, rest := out + [Tag(k, m[k])], rest - {k};
    }
    assert m - rest == m;
    TagLessIsStrictOrder();
    SortIgnoresOrder(TagLess, out, ListingOf(TagsOf(m)));
    out := Sort(TagLess, out);
  }

  predicate LooksLikeState(s: State) {
    s.version != 0 || s.lineage != "" || s.resources != []
  }

  ghost function AnalysisOf(s: State): Option<Analysis> {
    var n := Normalized(s);
    var rs := n.resources;
    if !LooksLikeState(n) then None
    else Some(Analysis(n.terraformVersion, n.version, n.serial, n.lineage,
                       SumOf(ManagedOf, rs) + SumOf(DataOf, rs), SumOf(ManagedOf, rs), SumOf(DataOf, rs),
                       SumOf(NullOf, rs), SumOf(ManagedOf, rs) - SumOf(NullOf, rs),
                       Breakdown(Tally(ByKind, rs)), Breakdown(Tally(ByProvider, rs)), Breakdown(Tally(ByModule, rs))))
  }

  ghost predicate Counted(rs: seq<Resource>, managed: int, data: int, nulls: int,
                          kinds: map<string, int>, providers: map<string, int>, modules: map<string, int>)
  {
    && managed == SumOf(ManagedOf, rs) && data == SumOf(DataOf, rs) && nulls == SumOf(NullOf, rs)
    && kinds == Tally(ByKind, rs) && providers == Tally(ByProvider, rs) && modules == Tally(ByModule, rs)
  }

  lemma CountedMore(rs: seq<Resource>, r: Resource, managed: int, data: int, nulls: int,
                    kinds: map<string, int>, providers: map<string, int>, modules: map<string, int>)
    requires Counted(rs, managed, data, nulls, kinds, providers, modules)
    ensures var m := ManagedOf(r);
            Counted(rs + [r], managed + m, data + DataOf(r), nulls + NullOf(r),
                    if m == 0 then kinds else Bump(kinds, Label(ByKind, r), m),
                    if m == 0 then providers else Bump(providers, Label(ByProvider, r), m),
                    if m == 0 then modules else Bump(modules, Label(ByModule, r), m))
  {
    SumSnoc(ManagedOf, rs, r);
    SumSnoc(DataOf, rs, r);
    SumSnoc(NullOf, rs, r);
    TallySnoc(ByKind, rs, r);
    TallySnoc(ByProvider, rs, r);
    TallySnoc(ByModule, rs, r);
  }

  lemma TallySnoc(f: Facet, rs: seq<Resource>, r: Resource)
    ensures Tally(f, rs + [r]) == if ManagedOf(r) == 0 then Tally(f, rs) else Bump(Tally(f, rs), Label(f, r), ManagedOf(r))
  {
    assert (rs + [r])[..|rs|] == rs;
  }

  method CountInstances(resources: seq<Resource>)
    returns (managed: int, data: int, nulls: int,
             kinds: map<string, int>, providers: map<string, int>, modules: map<string, int>)
    ensures Counted(resources, managed, data, nulls, kinds, providers, modules)
  {
    managed, data, nulls, kinds, providers, modules := 0, 0, 0, map[], map[], map[];
    for i := 0 to |resources|
      invariant Counted(resources[..i], managed, data, nulls, kinds, providers, modules)
    {
      var r := resources[i];
      CountedMore(resources[..i], r, managed, data, nulls, kinds, providers, modules);
      assert resources[..i + 1] == resources[..i] + [r];
      var k := |r.instances|;
      if k == 0 {
        continue;
      }
      if r.mode == "data" {
        data := data + k;
        continue;
      }
      managed := managed + k;
      kinds := Bump(kinds, r.kind, k);
      providers := Bump(providers, NormalizeProvider(r.provider, r.kind), k);
      modules := Bump(modules, ModuleLabel(r.path), k);
      if r.kind == "null_resource" || r.kind == "terraform_data" {
        nulls := nulls + k;
      }
    }
    assert resources[..|resources|] == resources;
  }

  method Analyze(s: State) returns (a: Option<Analysis>)
    ensures a == AnalysisOf(s)
  {
    var n := NormalizeLegacy(s);
    if n.version == 0 && n.lineage == "" && n.resources == [] {
      return None;
    }
    var managed, data, nulls, kinds, providers, modules := CountInstances(n.resources);
    var byKind := SortedCounts(kinds);
    var byProvider := SortedCounts(providers);
    var byModule := SortedCounts(modules);
    a := Some(Analysis(n.terraformVersion, n.version, n.serial, n.lineage, managed + data, managed, data, nulls, managed - nulls,
                       byKind, byProvider, byModule));
  }

  // ---------------------------------------------------------------- conservation

  function CountOf(t: Tag): int { t.count }

  lemma {:induction false} TallyTotals(f: Facet, rs: seq<Resource>)
    ensures Total(Tally(f, rs)) == SumOf(ManagedOf, rs)
  {
    if rs != [] {
      var init, r := rs[..|rs| - 1], rs[|rs| - 1];
      TallyTotals(f, init);
      TotalBump(Tally(f, init), Label(f, r), ManagedOf(r));
    }
  }

  lemma {:induction false} ListedTotals(m: map<string, int>, s: seq<Tag>)
    requires Lists(s, TagsOf(m))
    ensures SumOf(CountOf, s) == Total(m)
    decreases |s|
  {
    if s == [] {
      NoTags(m);
    } else {
      var n, t := |s| - 1, s[|s| - 1];
      DropKeepsRest(s, n);
      assert s[..n] + s[n + 1..] == s[..n];
      assert t in multiset(s);
      TagMember(m, t);
      TagsOfRemove(m, t.key);
      assert multiset(TagsOf(m) - {t}) == multiset(TagsOf(m)) - multiset{t};
      ListedTotals(m - {t.key}, s[..n]);
      TotalRemove(m, t.key);
    }
  }

  lemma NoTags(m: map<string, int>)
    requires Lists([], TagsOf(m))
    ensures m == map[]
  {
    assert forall t :: t in TagsOf(m) <==> t in multiset(TagsOf(m));
    forall k ensures k !in m { TagMember(m, Tag(k, Count(m, k))); }
  }

  lemma {:induction false} ModesPartition(rs: seq<Resource>)
    ensures SumOf(ManagedOf, rs) + SumOf(DataOf, rs) == SumOf(AllOf, rs)
    ensures 0 <= SumOf(NullOf, rs) <= SumOf(ManagedOf, rs) && 0 <= SumOf(DataOf, rs)
  {
    if rs != [] {
      ModesPartition(rs[..|rs| - 1]);
    }
  }

  /** Every breakdown sums to the managed count, managed plus data is every instance in the
      file, and RUM is between zero and managed. */
  lemma AnalysisConservesCounts(s: State)
    requires AnalysisOf(s).Some?
    ensures var a := AnalysisOf(s).value;
            && SumOf(CountOf, a.kinds) == SumOf(CountOf, a.providers) == SumOf(CountOf, a.modules) == a.managed
            && a.managed + a.data == a.total == SumOf(AllOf, Normalized(s).resources)
            && 0 <= a.rum <= a.managed
  {
    var rs := Normalized(s).resources;
    ModesPartition(rs);
    FacetConserves(ByKind, rs);
    FacetConserves(ByProvider, rs);
    FacetConserves(ByModule, rs);
  }

  lemma FacetConserves(f: Facet, rs: seq<Resource>)
    ensures SumOf(CountOf, Breakdown(Tally(f, rs))) == SumOf(ManagedOf, rs)
  {
    TallyTotals(f, rs);
    BreakdownIsUnique(Breakdown(Tally(f, rs)), Tally(f, rs));
    ListedTotals(Tally(f, rs), Breakdown(Tally(f, rs)));
  }

  /** Managed instances whose label is k. */
  function LabelledOf(f: Facet, k: string, rs: seq<Resource>): int {
    if rs == [] then 0
    else LabelledOf(f, k, rs[..|rs| - 1]) + if Label(f, rs[|rs| - 1]) == k then ManagedOf(rs[|rs| - 1]) else 0
  }

  /** A label is listed exactly when it has managed instances, with their number. */
  lemma {:induction false} TallyMeaning(f: Facet, rs: seq<Resource>, k: string)
    ensures Count(Tally(f, rs), k) == LabelledOf(f, k, rs)
    ensures k in Tally(f, rs) <==> LabelledOf(f, k, rs) > 0
  {
    if rs != [] {
      TallyMeaning(f, rs[..|rs| - 1], k);
    }
  }

  /** A breakdown runs from the largest count down, and by label where counts are equal. */
  lemma BreakdownOrder(m: map<string, int>, i: nat, j: nat)
    requires i < j < |Breakdown(m)|
    ensures var a, b := Breakdown(m)[i], Breakdown(m)[j];
            a.count > b.count || (a.count == b.count && Less(a.key, b.key))
  {
    var a, b := Breakdown(m)[i], Breakdown(m)[j];
    BreakdownIsOne(m);
    assert !TagLess(b, a);
    LessTotal(a.key, b.key);
    if a == b {
      NoTagTwice(Breakdown(m), TagsOf(m), i, j);
    }
  }

  lemma NoTagTwice(s: seq<Tag>, tags: set<Tag>, i: nat, j: nat)
    requires Lists(s, tags) && i < j < |s|
    ensures s[i] != s[j]
  {
    var rest := s[..i] + s[i + 1..];
    DropKeepsRest(s, i);
    assert rest[j - 1] == s[j];
    assert s[j] in multiset(rest);
    assert multiset(s)[s[i]] <= 1;
  }

  /** What a breakdown says of a label: its count, or 0 if it is not listed. */
  ghost predicate Says(tags: seq<Tag>, k: string, n: int) {
    if n == 0 then forall t :: t in tags ==> t.key != k else Tag(k, n) in tags
  }

  lemma BreakdownSays(f: Facet, rs: seq<Resource>, k: string, n: int)
    ensures Says(Breakdown(Tally(f, rs)), k, n) <==> n == Count(Tally(f, rs), k)
  {
    var m, tags := Tally(f, rs), Breakdown(Tally(f, rs));
    TallyMeaning(f, rs, k);
    BreakdownIsOne(m);
    forall t ensures t in tags <==> t.key in m && t.count == m[t.key] {
      TagMember(m, t);
      assert t in tags <==> t in multiset(tags);
    }
    if k in m {
      assert Tag(k, m[k]) in tags;
    }
  }

  /** What one more resource adds to the analysis of a v4 document: its instances to the total;
      those of a data source to data alone; any others to managed, and to RUM unless it is a
      placeholder. */
  lemma OneMoreCounted(s: State, t: State, r: Resource)
    requires AnalysisOf(s).Some? && AnalysisOf(t).Some? && s.resources != [] && t.resources == s.resources + [r]
    ensures var a, b, all := AnalysisOf(s).value, AnalysisOf(t).value, |r.instances|;
            var more := if r.mode == "data" then 0 else all;
            && b.total == a.total + all && b.managed == a.managed + more && b.data == a.data + all - more
            && b.rum == a.rum + (if r.kind in ["null_resource", "terraform_data"] then 0 else more)
            && b.nulls == b.managed - b.rum
  {
    SumSnoc(ManagedOf, s.resources, r);
    SumSnoc(DataOf, s.resources, r);
    SumSnoc(NullOf, s.resources, r);
  }

  /** One label's count is higher by more, the others are what they were. */
  ghost predicate GrowsBy(a: seq<Tag>, b: seq<Tag>, key: string, more: int) {
    forall k, n :: Says(a, k, n) <==> Says(b, k, if k == key then n + more else n)
  }

  lemma FacetGrows(f: Facet, rs: seq<Resource>, r: Resource)
    ensures GrowsBy(Breakdown(Tally(f, rs)), Breakdown(Tally(f, rs + [r])), Label(f, r), ManagedOf(r))
  {
    var a, b := Breakdown(Tally(f, rs)), Breakdown(Tally(f, rs + [r]));
    TallySnoc(f, rs, r);
    forall k, n ensures Says(a, k, n) <==> Says(b, k, if k == Label(f, r) then n + ManagedOf(r) else n) {
      BreakdownSays(f, rs, k, n);
      BreakdownSays(f, rs + [r], k, if k == Label(f, r) then n + ManagedOf(r) else n);
    }
  }

  lemma ListsOf(s: State)
    requires AnalysisOf(s).Some? && s.resources != []
    ensures var a, rs := AnalysisOf(s).value, s.resources;
            a.kinds == Breakdown(Tally(ByKind, rs)) && a.providers == Breakdown(Tally(ByProvider, rs)) && a.modules == Breakdown(Tally(ByModule, rs))
  {
  }

  /** ...and its managed instances to the counts of its type, its provider and its module. */
  lemma OneMoreListed(s: State, t: State, r: Resource)
    requires AnalysisOf(s).Some? && AnalysisOf(t).Some? && s.resources != [] && t.resources == s.resources + [r]
    ensures var a, b, more := AnalysisOf(s).value, AnalysisOf(t).value, if r.mode == "data" then 0 else |r.instances|;
            && GrowsBy(a.kinds, b.kinds, r.kind, more)
            && GrowsBy(a.providers, b.providers, NormalizeProvider(r.provider, r.kind), more)
            && GrowsBy(a.modules, b.modules, if r.path == "" then "root" else r.path, more)
  {
    ListsOf(s);
    ListsOf(t);
    FacetGrows(ByKind, s.resources, r);
    FacetGrows(ByProvider, s.resources, r);
    FacetGrows(ByModule, s.resources, r);
  }

  /** ...and a document without resources has nothing to count. */
  lemma NothingToCount(s: State)
    requires AnalysisOf(s).Some? && s.resources == [] && s.modules == []
    ensures var a := AnalysisOf(s).value;
            a.total == a.managed == a.data == a.rum == 0 && a.kinds == a.providers == a.modules == []
  {
    NothingListed(ByKind);
    NothingListed(ByProvider);
    NothingListed(ByModule);
  }

  lemma NothingListed(f: Facet)
    ensures Breakdown(Tally(f, [])) == []
  {
    BreakdownIsOne(map[]);
    assert TagsOf(map[]) == {};
    assert |multiset(Breakdown(map[]))| == 0;
  }

  // ---------------------------------------------------------------- the fold keeps counts

  function WeightOf(r: LegacyResource): int {
    (if r.primary.Some? then 1 else 0) + |r.deposed|
  }

  function Weights(m: LegacyModule): map<string, int> {
    map k | k in m.resources :: WeightOf(m.resources[k])
  }

  /** Non-null primaries plus deposed instances, module by module. */
  ghost function LegacyInstances(ms: seq<LegacyModule>): int {
    if ms == [] then 0
    else
      var m := ms[|ms| - 1];
      LegacyInstances(ms[..|ms| - 1]) + Total(Weights(m))
  }

  lemma {:induction false} FoldKeysWeigh(m: LegacyModule, keys: seq<string>)
    requires forall k :: k in keys ==> k in m.resources
    ensures SumOf(AllOf, FoldKeys(m, keys)) == SumAlong(Weights(m), keys)
  {
    var w := Weights(m);
    if keys != [] {
      var n := |keys| - 1;
      FoldKeysWeigh(m, keys[..n]);
      EntryWeighs(m, keys[n]);
      SumSnoc(AllOf, FoldKeys(m, keys[..n]), FoldEntry(m, keys[n]));
      SumAlongLast(w, keys);
    }
  }

  lemma EntryWeighs(m: LegacyModule, key: string)
    requires key in m.resources
    ensures AllOf(FoldEntry(m, key)) == Weights(m)[key]
  {
  }

  lemma {:induction false} SumAlongLast(w: map<string, int>, ks: seq<string>)
    requires ks != [] && forall j :: j in ks ==> j in w
    ensures SumAlong(w, ks) == SumAlong(w, ks[..|ks| - 1]) + w[ks[|ks| - 1]]
  {
    if |ks| > 1 {
      SumAlongLast(w, ks[1..]);
      assert ks[1..][..|ks| - 2] == ks[..|ks| - 1][1..];
    }
  }

  lemma {:induction false} FoldKeepsInstances(ms: seq<LegacyModule>)
    ensures SumOf(AllOf, Fold(ms)) == LegacyInstances(ms)
  {
    if ms != [] {
      var init, m := ms[..|ms| - 1], ms[|ms| - 1];
      FoldKeepsInstances(init);
      ModuleWeighs(m);
      SumAppend(AllOf, Fold(init), FoldModule(m));
    }
  }

  lemma ModuleWeighs(m: LegacyModule)
    ensures SumOf(AllOf, FoldModule(m)) == Total(Weights(m))
  {
    var w, ks := Weights(m), SortedKeys(m.resources);
    FoldKeysWeigh(m, ks);
    assert w.Keys == m.resources.Keys;
    SumAlongIsTotal(w, ks);
  }

  lemma {:induction false} FoldKeysHas(m: LegacyModule, keys: seq<string>, key: string)
    requires (forall k :: k in keys ==> k in m.resources) && key in keys
    ensures FoldEntry(m, key) in FoldKeys(m, keys)
  {
    var n := |keys| - 1;
    if key != keys[n] {
      FoldKeysHas(m, keys[..n], key);
    }
  }

  function Concat(parts: seq<seq<Resource>>): seq<Resource> {
    if parts == [] then [] else Concat(parts[..|parts| - 1]) + parts[|parts| - 1]
  }

  lemma {:induction false} ConcatHas(parts: seq<seq<Resource>>, i: nat, r: Resource)
    requires i < |parts| && r in parts[i]
    ensures r in Concat(parts)
  {
    if i < |parts| - 1 {
      ConcatHas(parts[..|parts| - 1], i, r);
    }
  }

  ghost function PartsOf(ms: seq<LegacyModule>): seq<seq<Resource>> {
    seq(|ms|, i requires 0 <= i < |ms| => FoldModule(ms[i]))
  }

  lemma {:induction false} FoldIsConcat(ms: seq<LegacyModule>)
    ensures Fold(ms) == Concat(PartsOf(ms))
  {
    if ms != [] {
      var n := |ms| - 1;
      FoldIsConcat(ms[..n]);
      assert PartsOf(ms)[..n] == PartsOf(ms[..n]);
    }
  }

  /** The resource an entry [data.]type.name of a module turns into. An explicit type of the entry
      wins over the one in the key; if they differ, the name is what is left of the key when the
      explicit type is taken off its front, or all of it. */
  lemma FoldedEntry(ms: seq<LegacyModule>, i: nat, data: bool, kind: string, name: string)
    requires i < |ms| && kind != "" && '.' !in kind && (data || kind != "data")
    requires (if data then "data." else "") + kind + "." + name in ms[i].resources
    ensures var rv := ms[i].resources[(if data then "data." else "") + kind + "." + name];
            var given := if rv.kind == "" then kind else rv.kind;
            Resource(LegacyModuleField(ms[i].path), if data then "data" else "managed", given,
                     if given == kind then name else TrimPrefix(kind + "." + name, given + "."), rv.provider,
                     (if rv.primary.Some? then [rv.primary.value] else []) + rv.deposed) in Fold(ms)
  {
    var key := (if data then "data." else "") + kind + "." + name;
    KeyParsing(data, kind, name);
    KeyBody(data, kind, name);
    FoldKeysHas(ms[i], SortedKeys(ms[i].resources), key);
    FoldIsConcat(ms);
    ConcatHas(PartsOf(ms), i, FoldEntry(ms[i], key));
  }

  lemma {:induction false} FoldIsEmpty(ms: seq<LegacyModule>)
    ensures Fold(ms) == [] <==> forall i :: 0 <= i < |ms| ==> ms[i].resources == map[]
  {
    if ms != [] {
      var n := |ms| - 1;
      FoldIsEmpty(ms[..n]);
      ModuleIsEmpty(ms[n]);
      assert Fold(ms) == Fold(ms[..n]) + FoldModule(ms[n]);
      assert Fold(ms) == [] <==> Fold(ms[..n]) == [] && ms[n].resources == map[];
    }
  }

  lemma ModuleIsEmpty(m: LegacyModule)
    ensures FoldModule(m) == [] <==> m.resources == map[]
  {
    var keys := SortedKeys(m.resources);
    FoldKeysLength(m, keys);
    if m.resources != map[] {
      var k :| k in m.resources;
      assert k in keys;
    }
  }

  lemma {:induction false} FoldKeysLength(m: LegacyModule, keys: seq<string>)
    requires forall k :: k in keys ==> k in m.resources
    ensures |FoldKeys(m, keys)| == |keys|
  {
    if keys != [] {
      FoldKeysLength(m, keys[..|keys| - 1]);
    }
  }

  /** A document is rejected exactly if it has no version, no lineage and no resource in either
      layout; the analysis of any other carries its header. */
  lemma AcceptedExactly(s: State)
    ensures AnalysisOf(s).None? <==>
            (s.version == 0 && s.lineage == "" && s.resources == [] && forall i :: 0 <= i < |s.modules| ==> s.modules[i].resources == map[])
    ensures AnalysisOf(s).Some? ==>
              var a := AnalysisOf(s).value;
              a.serial == s.serial && a.lineage == s.lineage && a.formatVersion == s.version && a.terraformVersion == s.terraformVersion
  {
    FoldIsEmpty(s.modules);
  }

  /** The fold loses and invents nothing, leaves v4 documents alone, and applied again changes
      nothing. */
  lemma NormalizationMeaning(s: State)
    ensures Normalized(Normalized(s)) == Normalized(s)
    ensures s.resources != [] ==> Normalized(s) == s
    ensures SumOf(AllOf, Normalized(s).resources) ==
            if s.resources == [] then LegacyInstances(s.modules) else SumOf(AllOf, s.resources)
  {
    FoldKeepsInstances(s.modules);
  }

  // ---------------------------------------------------------------- the resources view

  datatype ResourceSummary = ResourceSummary(path: string, mode: string, kind: string, name: string, provider: string,
                                             instances: int, instanceKeys: seq<string>)

  function KeysOf(instances: seq<Instance>): seq<string> {
    if instances == [] then []
    else
      var last := instances[|instances| - 1];
      KeysOf(instances[..|instances| - 1]) + if last.indexKey.Some? then [last.indexKey.value] else []
  }

  method InstanceKeys(instances: seq<Instance>) returns (keys: seq<string>)
    ensures keys == KeysOf(instances)
  {
    keys := [];
    for i := 0 to |instances|
      invariant keys == KeysOf(instances[..i])
    {
      assert instances[..i + 1][..i] == instances[..i];
      if instances[i].indexKey.Some? {
        keys := keys + [instances[i].indexKey.value];
      }
    }
    assert instances[..|instances|] == instances;
  }

  predicate SummaryLess(a: ResourceSummary, b: ResourceSummary) {
    if a.path != b.path then Less(a.path, b.path)
    else if a.kind != b.kind then Less(a.kind, b.kind)
    else Less(a.name, b.name)
  }

  function Summarize(r: Resource): ResourceSummary {
    ResourceSummary(ModuleLabel(r.path), r.mode, r.kind, r.name, NormalizeProvider(r.provider, r.kind),
                    |r.instances|, KeysOf(r.instances))
  }

  function Summaries(rs: seq<Resource>): seq<ResourceSummary> {
    if rs == [] then [] else Summaries(rs[..|rs| - 1]) + [Summarize(rs[|rs| - 1])]
  }

  lemma KeysAppend(a: seq<Instance>, b: seq<Instance>)
    ensures KeysOf(a + b) == KeysOf(a) + KeysOf(b)
  {
    if b == [] {
      assert a + b == a;
    } else {
      var n := |b| - 1;
      assert (a + b)[..|a + b| - 1] == a + b[..n];
      KeysAppend(a, b[..n]);
    }
  }

  /** The keys of the instances that have one, in order. */
  ghost predicate ListsKeys(instances: seq<Instance>, keys: seq<string>) {
    && (instances == [] ==> keys == [])
    && forall j :: 0 <= j < |instances| ==>
         keys == KeysOf(instances[..j]) + (if instances[j].indexKey.Some? then [instances[j].indexKey.value] else [])
                 + KeysOf(instances[j + 1..])
  }

  /** The entry of each resource, field by field. */
  lemma SummaryFields(rs: seq<Resource>, i: nat)
    requires i < |rs|
    ensures |Summaries(rs)| == |rs|
    ensures var r, e := rs[i], Summaries(rs)[i];
            && e.path == (if r.path == "" then "root" else r.path) && e.mode == r.mode && e.kind == r.kind && e.name == r.name
            && e.provider == NormalizeProvider(r.provider, r.kind) && e.instances == |r.instances|
            && ListsKeys(r.instances, e.instanceKeys)
  {
    SummaryAt(rs, i);
    KeysSplit(rs[i].instances);
  }

  lemma {:induction false} SummaryAt(rs: seq<Resource>, i: nat)
    requires i < |rs|
    ensures |Summaries(rs)| == |rs| && Summaries(rs)[i] == Summarize(rs[i])
  {
    var n := |rs| - 1;
    SummariesLength(rs[..n]);
    assert Summaries(rs) == Summaries(rs[..n]) + [Summarize(rs[n])];
    if i < n {
      SummaryAt(rs[..n], i);
    }
  }

  lemma {:induction false} SummariesLength(rs: seq<Resource>)
    ensures |Summaries(rs)| == |rs|
  {
    if rs != [] {
      SummariesLength(rs[..|rs| - 1]);
    }
  }

  lemma KeysSplit(instances: seq<Instance>)
    ensures ListsKeys(instances, KeysOf(instances))
  {
    forall j | 0 <= j < |instances|
      ensures KeysOf(instances) == KeysOf(instances[..j]) + (if instances[j].indexKey.Some? then [instances[j].indexKey.value] else [])
                                   + KeysOf(instances[j + 1..])
    {
      var one := [instances[j]];
      assert instances == instances[..j] + one + instances[j + 1..];
      KeysAppend(instances[..j] + one, instances[j + 1..]);
      KeysAppend(instances[..j], one);
      assert one[..0] == [];
    }
  }

  function ListedAll(r: ResourceSummary): int { r.instances }
  function ListedData(r: ResourceSummary): int { if r.mode == "data" then r.instances else 0 }

  /** The list is a permutation of the resources, one entry each; ties in (module, type, name)
      may come out either way. */
  method ListResources(s: State) returns (out: seq<ResourceSummary>)
    ensures multiset(out) == multiset(Summaries(Normalized(s).resources))
    ensures Sorted(SummaryLess, out)
    ensures AnalysisOf(s).Some? ==>
              SumOf(ListedData, out) == AnalysisOf(s).value.data && SumOf(ListedAll, out) == AnalysisOf(s).value.total
  {
    var n := NormalizeLegacy(s);
    var listed := Summarized(n.resources);
    out := Sort(SummaryLess, listed);
    SummaryLessIsWeakOrder();
    SortSorts(SummaryLess, listed);
    SummaryTotals(n.resources, out);
  }

  method Summarized(resources: seq<Resource>) returns (out: seq<ResourceSummary>)
    ensures out == Summaries(resources)
  {
    out := [];
    for i := 0 to |resources|
      invariant out == Summaries(resources[..i])
    {
      var r := resources[i];
      var keys := InstanceKeys(r.instances);
      assert resources[..i + 1][..i] == resources[..i];
      out := out + [ResourceSummary(ModuleLabel(r.path), r.mode, r.kind, r.name, NormalizeProvider(r.provider, r.kind),
                                    |r.instances|, keys)];
    }
    assert resources[..|resources|] == resources;
  }

  /** Sorted means by module, then type, then name. */
  lemma ListedInOrder(out: seq<ResourceSummary>, i: nat, j: nat)
    requires Sorted(SummaryLess, out) && i < j < |out|
    ensures var a, b := out[i], out[j];
            || Less(a.path, b.path)
            || (a.path == b.path && (Less(a.kind, b.kind) || (a.kind == b.kind && (a.name == b.name || Less(a.name, b.name)))))
  {
    assert !SummaryLess(out[j], out[i]);
    LessTotal(out[i].path, out[j].path);
    LessTotal(out[i].kind, out[j].kind);
    LessTotal(out[i].name, out[j].name);
  }

  lemma SummaryLessIsWeakOrder()
    ensures WeakOrder(SummaryLess)
  {
    forall a, b | SummaryLess(a, b) ensures !SummaryLess(b, a) { LessAsymmetric(a, b); }
    forall a, b, c | SummaryLess(a, c) ensures SummaryLess(a, b) || SummaryLess(b, c) { SummaryBetween(a, b, c); }
  }

  lemma LessAsymmetric(a: ResourceSummary, b: ResourceSummary)
    requires SummaryLess(a, b)
    ensures !SummaryLess(b, a)
  {
    NotBoth(a.path, b.path);
    NotBoth(a.kind, b.kind);
    NotBoth(a.name, b.name);
  }

  lemma NotBoth(a: string, b: string)
    ensures !(Less(a, b) && Less(b, a))
  {
    if Less(a, b) && Less(b, a) {
      LessTransitive(a, b, a);
      LessIrreflexive(a);
    }
  }

  lemma LessBetween(a: string, b: string, c: string)
    requires Less(a, c)
    ensures Less(a, b) || Less(b, c)
  {
    LessTotal(a, b);
    if Less(b, a) {
      LessTransitive(b, a, c);
    }
  }

  lemma SummaryBetween(a: ResourceSummary, b: ResourceSummary, c: ResourceSummary)
    requires SummaryLess(a, c)
    ensures SummaryLess(a, b) || SummaryLess(b, c)
  {
    if a.path != c.path {
      LessBetween(a.path, b.path, c.path);
      LessIrreflexive(a.path);
    } else if a.path != b.path {
      LessTotal(a.path, b.path);
    } else if a.kind != c.kind {
      LessBetween(a.kind, b.kind, c.kind);
    } else if a.kind != b.kind {
      LessTotal(a.kind, b.kind);
    } else {
      LessBetween(a.name, b.name, c.name);
    }
  }

  /** Per mode, any order of the summaries adds up to what the resources hold. */
  lemma SummaryTotals(rs: seq<Resource>, out: seq<ResourceSummary>)
    requires multiset(out) == multiset(Summaries(rs))
    ensures SumOf(ListedData, out) == SumOf(DataOf, rs)
    ensures SumOf(ListedAll, out) == SumOf(ManagedOf, rs) + SumOf(DataOf, rs)
  {
    SumPermutation(ListedData, out, Summaries(rs));
    SumPermutation(ListedAll, out, Summaries(rs));
    SummariesKeepSums(rs);
    ModesPartition(rs);
  }

  lemma {:induction false} SummariesKeepSums(rs: seq<Resource>)
    ensures SumOf(ListedAll, Summaries(rs)) == SumOf(AllOf, rs)
    ensures SumOf(ListedData, Summaries(rs)) == SumOf(DataOf, rs)
  {
    if rs != [] {
      var init, last := Summaries(rs[..|rs| - 1]), Summarize(rs[|rs| - 1]);
      SummariesKeepSums(rs[..|rs| - 1]);
      assert (init + [last])[..|init|] == init;
    }
  }
}
