/** Chest loot configurations and chest filling. Every `*.yml` file of the
    `chests` directory becomes a configuration named after the file (with
    ".yml" removed): a display name, default group sizes and named groups of
    weighted loot entries, the top-level `items` forming the group "global".
    When nothing loads, a built-in "fallback" configuration is registered.
    Filling a chest sets its name, then for each group draws a number of
    entries, picks that many from the group's sampler and lets a poll place
    exactly the picked entries. */
module ChestManager {
  import opened Common
  import opened Yaml
  import opened Items
  import opened Server
  import opened Weighted
  import opened ChestItems
  import opened ChestPolls

  /** "宝箱", the name of a configuration without one. */
  const DefaultChestName: string := "\U{5B9D}\U{7BB1}"
  /** "&6默认宝箱", the fallback configuration's name. */
  const FallbackName: string := "&6\U{9ED8}\U{8BA4}\U{5B9D}\U{7BB1}"
  const FallbackKey: string := "fallback"
  const GlobalGroup: string := "global"
  const DefaultMinItems: int := 3
  const DefaultMaxItems: int := 6

  /** What item parsing consults: the material registry, whether the
      custom-item integration is enabled and loaded, and the custom blocks it
      can turn into item stacks. */
  datatype ItemEnv = ItemEnv(known: set<Material>, iaReady: bool, blockItems: map<string, ItemStack>)

  /** A configured loot entry. */
  datatype ItemSpec = ItemSpec(template: ItemStack, slot: int, min: int, max: int)
  /** A configured group: its size range and its entries with their weights. */
  datatype GroupSpec = GroupSpec(minItems: int, maxItems: int, items: seq<(ItemSpec, real)>)
  /** A configuration as the file describes it. */
  datatype ConfigSpec = ConfigSpec(name: string, globalMinItems: int, globalMaxItems: int, groups: seq<(string, GroupSpec)>)

  /** `parseContainerItem(section)` without the display metadata: the
      material is required; an "IA:" material needs the integration ready and
      a custom block it knows; any other must name a known material other
      than AIR. `slot` defaults to -1, `min` to 1 and `max` to `min`. */
  function ParseItem(env: ItemEnv, sec: Section): (r: Option<ItemSpec>)
    ensures GetString(sec, "material", "") == "" ==> r.None?
    ensures r.Some? && Get(sec, "slot").None? ==> r.value.slot == -1
    ensures r.Some? && Get(sec, "min").None? ==> r.value.min == 1
    ensures r.Some? && Get(sec, "max").None? ==> r.value.max == r.value.min
    ensures r.Some? && !StartsWith(GetString(sec, "material", ""), "IA:") ==>
      r.value.template.material in env.known && r.value.template.material != AIR && r.value.template.amount == 1
    ensures var name := GetString(sec, "material", "");
      name != "" && !StartsWith(name, "IA:") ==>
        && (r.Some? <==> NormalName(name) in env.known && NormalName(name) != AIR)
        && (r.Some? ==> r.value.template == Stack(NormalName(name)))
    ensures StartsWith(GetString(sec, "material", ""), "IA:") ==>
      (r.Some? <==> env.iaReady && GetString(sec, "material", "")[3..] in env.blockItems)
  {
    var materialName := GetString(sec, "material", "");
    var slot := GetInt(sec, "slot", -1);
    var min := GetInt(sec, "min", 1);
    var max := GetInt(sec, "max", min);
    if materialName == "" then None
    else if StartsWith(materialName, "IA:") then
      var customBlockId := materialName[3..];
      if env.iaReady && customBlockId in env.blockItems then
        Some(ItemSpec(env.blockItems[customBlockId], slot, min, max))
      else None
    else
      match MatchMaterial(env.known, materialName)
      case None => None
      case Some(m) => if m == AIR then None else Some(ItemSpec(Stack(m), slot, min, max))
  }

  /** The entries of an `items` section among its first n keys: a key whose
      value is a section that parses, with its `weight` (1.0 by default). */
  function ParseItemsUpTo(env: ItemEnv, sec: Section, n: nat): seq<(ItemSpec, real)>
    requires n <= |sec|
  {
    if n == 0 then []
    else
      var prev := ParseItemsUpTo(env, sec, n - 1);
      match GetSection(sec, sec[n - 1].0)
      case None => prev
      case Some(sub) =>
        match ParseItem(env, sub)
        case None => prev
        case Some(it) => prev + [(it, GetDouble(sub, "weight", 1.0))]
  }

  lemma ParseItemsStep(env: ItemEnv, sec: Section, i: nat)
    requires i < |sec|
    ensures var sub := GetSection(sec, sec[i].0);
      ParseItemsUpTo(env, sec, i + 1) ==
        if sub.Some? && ParseItem(env, sub.value).Some?
        then ParseItemsUpTo(env, sec, i) + [(ParseItem(env, sub.value).value, GetDouble(sub.value, "weight", 1.0))]
        else ParseItemsUpTo(env, sec, i)
  {
  }

  function ParseItems(env: ItemEnv, sec: Section): seq<(ItemSpec, real)> {
    ParseItemsUpTo(env, sec, |sec|)
  }

  /** The sampler a list of weighted entries is added into, in order. */
  function ItemsPool<T>(items: seq<(T, real)>): Pool<T> {
    if |items| == 0 then Pool([], 0.0)
    else AddEntry(ItemsPool(items[..|items| - 1]), items[|items| - 1].0, items[|items| - 1].1)
  }

  lemma {:induction false} ItemsPoolWellFormed<T>(items: seq<(T, real)>)
    ensures WellFormed(ItemsPool(items))
  {
    if |items| > 0 {
      ItemsPoolWellFormed(items[..|items| - 1]);
      AddEntryKeepsInvariant(ItemsPool(items[..|items| - 1]), items[|items| - 1].0, items[|items| - 1].1);
    }
  }

  /** The group's size range when the file gives one: `amount.min` and
      `amount.max` (3 and 6 by default), or 3 and 6 without an `amount`
      section. */
  function Amounts(doc: Section): (r: (int, int))
    ensures GetSection(doc, "amount").None? ==> r == (DefaultMinItems, DefaultMaxItems)
  {
    match GetSection(doc, "amount")
    case None => (DefaultMinItems, DefaultMaxItems)
    case Some(a) => (GetInt(a, "min", DefaultMinItems), GetInt(a, "max", DefaultMaxItems))
  }

  /** A named group: its sizes default to the file's, its entries come from
      its `items` section. */
  function ParseGroup(env: ItemEnv, g: Section, gmin: int, gmax: int): (r: GroupSpec)
    ensures Get(g, "min").None? ==> r.minItems == gmin
    ensures Get(g, "max").None? ==> r.maxItems == gmax
    ensures GetSection(g, "items").None? ==> r.items == []
  {
    GroupSpec(GetInt(g, "min", gmin), GetInt(g, "max", gmax),
      match GetSection(g, "items") case None => [] case Some(its) => ParseItems(env, its))
  }

  /** The groups of a `groups` section among its first n keys: every key
      whose value is a section, put under that key. */
  function ParseGroupsUpTo(env: ItemEnv, gs: Section, gmin: int, gmax: int, n: nat): seq<(string, GroupSpec)>
    requires n <= |gs|
  {
    if n == 0 then []
    else
      var prev := ParseGroupsUpTo(env, gs, gmin, gmax, n - 1);
      var key := gs[n - 1].0;
      match GetSection(gs, key)
      case None => prev
      case Some(g) => Put(prev, key, ParseGroup(env, g, gmin, gmax))
  }

  lemma ParseGroupsStep(env: ItemEnv, gs: Section, gmin: int, gmax: int, j: nat)
    requires j < |gs|
    ensures ParseGroupsUpTo(env, gs, gmin, gmax, j + 1) ==
      match GetSection(gs, gs[j].0)
      case None => ParseGroupsUpTo(env, gs, gmin, gmax, j)
      case Some(g) => Put(ParseGroupsUpTo(env, gs, gmin, gmax, j), gs[j].0, ParseGroup(env, g, gmin, gmax))
  {
  }

  /** The groups section's groups, then the top-level `items` as "global". */
  function ParseGroups(env: ItemEnv, doc: Section, gmin: int, gmax: int): seq<(string, GroupSpec)> {
    var named := match GetSection(doc, "groups")
      case None => []
      case Some(gs) => ParseGroupsUpTo(env, gs, gmin, gmax, |gs|);
    match GetSection(doc, "items")
    case None => named
    case Some(its) => Put(named, GlobalGroup, GroupSpec(gmin, gmax, ParseItems(env, its)))
  }

  /** One configuration file. */
  function ParseConfig(env: ItemEnv, doc: Section): (c: ConfigSpec)
    ensures Get(doc, "name").None? ==> c.name == DefaultChestName
    ensures GetSection(doc, "amount").None? ==> c.globalMinItems == DefaultMinItems && c.globalMaxItems == DefaultMaxItems
    ensures GetSection(doc, "items").Some? ==>
      Lookup(c.groups, GlobalGroup) == Some(GroupSpec(c.globalMinItems, c.globalMaxItems, ParseItems(env, GetSection(doc, "items").value)))
  {
    var (gmin, gmax) := Amounts(doc);
    ConfigSpec(GetString(doc, "name", DefaultChestName), gmin, gmax, ParseGroups(env, doc, gmin, gmax))
  }

  /** A file's configuration name: the file name with ".yml" removed. */
  function ConfigName(fileName: string): string {
    ReplaceAll(fileName, ".yml", "")
  }

  /** The configurations of the first n files of the listing; only names
      ending in ".yml" are read. */
  function ConfigsUpTo(env: ItemEnv, files: seq<(string, Section)>, n: nat): seq<(string, ConfigSpec)>
    requires n <= |files|
  {
    if n == 0 then []
    else
      var prev := ConfigsUpTo(env, files, n - 1);
      if EndsWith(files[n - 1].0, ".yml") then Put(prev, ConfigName(files[n - 1].0), ParseConfig(env, files[n - 1].1))
      else prev
  }

  /** `createFallbackConfig()`. */
  function FallbackSpec(): ConfigSpec {
    ConfigSpec(FallbackName, DefaultMinItems, DefaultMaxItems,
      [(GlobalGroup, GroupSpec(DefaultMinItems, DefaultMaxItems, FallbackItems()))])
  }

  function FallbackItems(): seq<(ItemSpec, real)> {
    [ (ItemSpec(Stack(STONE), -1, 1, 5), 10.0),
      (ItemSpec(Stack(DIRT), -1, 3, 7), 8.0),
      (ItemSpec(Stack(COAL), -1, 1, 3), 5.0),
      (ItemSpec(Stack(IRON_INGOT), -1, 1, 1), 3.0),
      (ItemSpec(Stack(GOLD_INGOT), -1, 1, 1), 2.0),
      (ItemSpec(Stack(DIAMOND), -1, 1, 1), 1.0) ]
  }

  /** Adding one more entry to the list adds it to the sampler. */
  lemma ItemsPoolSnoc<T>(items: seq<(T, real)>, x: (T, real))
    ensures ItemsPool(items + [x]) == AddEntry(ItemsPool(items), x.0, x.1)
  {
    assert (items + [x])[..|items|] == items;
  }

  /** The fallback's single group holds all six entries, with a total weight
      of 29, and samples DIAMOND exactly on the last twenty-ninth. */
  lemma FallbackShape(r: real)
    requires 0.0 <= r < 1.0
    ensures var p := ItemsPool(FallbackItems());
      && WellFormed(p) && |p.entries| == 6 && p.total == 29.0
      && (Choose(p, r) == Some(ItemSpec(Stack(DIAMOND), -1, 1, 1)) <==> 28.0 <= Scaled(p, r))
  {
    var f := FallbackItems();
    var p := ItemsPool(f);
    ItemsPoolWellFormed(f);
    FallbackPool();
    assert Lower(p, 5) == 28.0 && Cumulative(p, 5) == 29.0;
    ChooseInterval(p, r, 5);
    forall i | 0 <= i < 5
      ensures p.entries[i].item != ItemSpec(Stack(DIAMOND), -1, 1, 1)
    {
    }
  }

  /** The fallback sampler entry by entry: cumulative weights 10, 18, 23,
      26, 28 and 29. */
  lemma FallbackPool()
    ensures var f := FallbackItems();
      ItemsPool(f) == Pool([Entry(f[0].0, 10.0), Entry(f[1].0, 18.0), Entry(f[2].0, 23.0),
                            Entry(f[3].0, 26.0), Entry(f[4].0, 28.0), Entry(f[5].0, 29.0)], 29.0)
  {
    var f := FallbackItems();
    assert ItemsPool(f[..3]) == Pool([Entry(f[0].0, 10.0), Entry(f[1].0, 18.0), Entry(f[2].0, 23.0)], 23.0) by {
      assert f[..0] == [];
      assert f[..1] == f[..0] + [f[0]];
      ItemsPoolSnoc(f[..0], f[0]);
      assert f[..2] == f[..1] + [f[1]];
      ItemsPoolSnoc(f[..1], f[1]);
      assert f[..3] == f[..2] + [f[2]];
      ItemsPoolSnoc(f[..2], f[2]);
    }
    assert f[..4] == f[..3] + [f[3]];
    ItemsPoolSnoc(f[..3], f[3]);
    assert f[..5] == f[..4] + [f[4]];
    ItemsPoolSnoc(f[..4], f[4]);
    assert f == f[..5] + [f[5]];
    ItemsPoolSnoc(f[..5], f[5]);
  }

  /** The configurations after `loadChestConfigs()`: the loaded ones, or the
      fallback alone when none loads (or the directory is missing). */
  function LoadedConfigs(env: ItemEnv, chests: Option<seq<(string, Section)>>): (r: seq<(string, ConfigSpec)>)
    ensures |r| >= 1
    ensures chests.None? ==> r == [(FallbackKey, FallbackSpec())]
  {
    var loaded := if chests.None? then [] else ConfigsUpTo(env, chests.value, |chests.value|);
    if |loaded| == 0 then [(FallbackKey, FallbackSpec())] else loaded
  }

  // The loaded objects.

  datatype ChestGroup = ChestGroup(minItems: int, maxItems: int, weightedItems: WeightedRandom<ContainerItem>)
  datatype ChestConfig = ChestConfig(name: string, globalMinItems: int, globalMaxItems: int, groups: seq<(string, ChestGroup)>)

  /** An entry object as it was configured. */
  ghost function SpecOf(x: ContainerItem): ItemSpec {
    ItemSpec(x.configured, x.slot, x.min, x.max)
  }

  /** Each entry object replaced by its configuration, weights kept. */
  ghost function SpecEntries(es: seq<Entry<ContainerItem>>): (r: seq<Entry<ItemSpec>>)
    ensures |r| == |es|
  {
    if |es| == 0 then []
    else SpecEntries(es[..|es| - 1]) + [Entry(SpecOf(es[|es| - 1].item), es[|es| - 1].cumulativeWeight)]
  }

  /** A sampler of entry objects that is, entry by entry, the sampler of the
      configured entries. */
  ghost predicate Mirrors(p: Pool<ContainerItem>, q: Pool<ItemSpec>) {
    Pool(SpecEntries(p.entries), p.total) == q
  }

  lemma MirrorsAdd(p: Pool<ContainerItem>, q: Pool<ItemSpec>, x: ContainerItem, w: real)
    requires Mirrors(p, q)
    ensures Mirrors(AddEntry(p, x, w), AddEntry(q, SpecOf(x), w))
  {
    if w > 0.0 {
      var es := AddEntry(p, x, w).entries;
      assert es[..|es| - 1] == p.entries;
    }
  }

  ghost function GroupObjects(gs: seq<(string, ChestGroup)>): set<WeightedRandom<ContainerItem>> {
    set j | 0 <= j < |gs| :: gs[j].1.weightedItems
  }

  ghost function ConfigObjects(cs: seq<(string, ChestConfig)>): set<WeightedRandom<ContainerItem>> {
    set i, j | 0 <= i < |cs| && 0 <= j < |cs[i].1.groups| :: cs[i].1.groups[j].1.weightedItems
  }

  /** A group reduced to what loading determines: its size range and its
      sampler with each entry read back as its configuration. */
  datatype GroupView = GroupView(minItems: int, maxItems: int, pool: Pool<ItemSpec>)
  datatype ConfigView = ConfigView(name: string, globalMinItems: int, globalMaxItems: int, groups: seq<(string, GroupView)>)

  ghost function LoadedView(g: ChestGroup): GroupView
    reads g.weightedItems
  {
    var p := g.weightedItems.State();
    GroupView(g.minItems, g.maxItems, Pool(SpecEntries(p.entries), p.total))
  }

  function SpecView(s: GroupSpec): GroupView {
    GroupView(s.minItems, s.maxItems, ItemsPool(s.items))
  }

  ghost function LoadedViews(gs: seq<(string, ChestGroup)>): (r: seq<(string, GroupView)>)
    reads GroupObjects(gs)
    ensures |r| == |gs|
  {
    if |gs| == 0 then []
    else
      var n := |gs| - 1;
      assert GroupObjects(gs[..n]) <= GroupObjects(gs) by {
        forall j | 0 <= j < n ensures gs[..n][j].1.weightedItems in GroupObjects(gs) {
          assert gs[..n][j] == gs[j];
        }
      }
      assert gs[n].1.weightedItems in GroupObjects(gs);
      LoadedViews(gs[..n]) + [(gs[n].0, LoadedView(gs[n].1))]
  }

  function SpecViews(ss: seq<(string, GroupSpec)>): (r: seq<(string, GroupView)>)
    ensures |r| == |ss|
    ensures forall j :: 0 <= j < |ss| ==> r[j] == (ss[j].0, SpecView(ss[j].1))
  {
    if |ss| == 0 then [] else SpecViews(ss[..|ss| - 1]) + [(ss[|ss| - 1].0, SpecView(ss[|ss| - 1].1))]
  }

  ghost function LoadedConfigView(c: ChestConfig): ConfigView
    reads GroupObjects(c.groups)
  {
    ConfigView(c.name, c.globalMinItems, c.globalMaxItems, LoadedViews(c.groups))
  }

  function SpecConfigView(s: ConfigSpec): ConfigView {
    ConfigView(s.name, s.globalMinItems, s.globalMaxItems, SpecViews(s.groups))
  }

  ghost function LoadedConfigViews(cs: seq<(string, ChestConfig)>): (r: seq<(string, ConfigView)>)
    reads ConfigObjects(cs)
    ensures |r| == |cs|
  {
    if |cs| == 0 then []
    else
      var n := |cs| - 1;
      assert ConfigObjects(cs[..n]) <= ConfigObjects(cs) by {
        forall i, j | 0 <= i < n && 0 <= j < |cs[..n][i].1.groups|
          ensures cs[..n][i].1.groups[j].1.weightedItems in ConfigObjects(cs)
        {
          assert cs[..n][i] == cs[i];
        }
      }
      assert GroupObjects(cs[n].1.groups) <= ConfigObjects(cs) by {
        forall j | 0 <= j < |cs[n].1.groups|
          ensures cs[n].1.groups[j].1.weightedItems in ConfigObjects(cs)
        {
        }
      }
      LoadedConfigViews(cs[..n]) + [(cs[n].0, LoadedConfigView(cs[n].1))]
  }

  function SpecConfigViews(ss: seq<(string, ConfigSpec)>): (r: seq<(string, ConfigView)>)
    ensures |r| == |ss|
    ensures forall i :: 0 <= i < |ss| ==> r[i] == (ss[i].0, SpecConfigView(ss[i].1))
  {
    if |ss| == 0 then [] else SpecConfigViews(ss[..|ss| - 1]) + [(ss[|ss| - 1].0, SpecConfigView(ss[|ss| - 1].1))]
  }

  lemma {:induction false} LoadedViewsAt(gs: seq<(string, ChestGroup)>, j: nat)
    requires j < |gs|
    ensures LoadedViews(gs)[j] == (gs[j].0, LoadedView(gs[j].1))
  {
    if j < |gs| - 1 {
      LoadedViewsAt(gs[..|gs| - 1], j);
    }
  }

  lemma {:induction false} LoadedConfigViewsAt(cs: seq<(string, ChestConfig)>, i: nat)
    requires i < |cs|
    ensures LoadedConfigViews(cs)[i] == (cs[i].0, LoadedConfigView(cs[i].1))
  {
    if i < |cs| - 1 {
      LoadedConfigViewsAt(cs[..|cs| - 1], i);
    }
  }

  /** A loaded group is, entry by entry, the group its section describes. */
  ghost predicate GroupMirrors(g: ChestGroup, s: GroupSpec)
    reads g.weightedItems
  {
    LoadedView(g) == SpecView(s)
  }

  ghost predicate GroupsMirror(gs: seq<(string, ChestGroup)>, ss: seq<(string, GroupSpec)>)
    reads GroupObjects(gs)
  {
    LoadedViews(gs) == SpecViews(ss)
  }

  ghost predicate ConfigMirrors(c: ChestConfig, s: ConfigSpec)
    reads GroupObjects(c.groups)
  {
    LoadedConfigView(c) == SpecConfigView(s)
  }

  ghost predicate ConfigsMirror(cs: seq<(string, ChestConfig)>, ss: seq<(string, ConfigSpec)>)
    reads ConfigObjects(cs)
  {
    LoadedConfigViews(cs) == SpecConfigViews(ss)
  }

  // Each view commutes with `Put`: the view of the list with one entry put
  // is the view with that entry's view put.

  lemma LoadedViewsPut(gs: seq<(string, ChestGroup)>, key: string, g: ChestGroup)
    ensures LoadedViews(Put(gs, key, g)) == Put(LoadedViews(gs), key, LoadedView(g))
  {
    var vs := LoadedViews(gs);
    forall j | 0 <= j < |gs| ensures gs[j].0 == vs[j].0 {
      LoadedViewsAt(gs, j);
    }
    IndexOfSameKeys(gs, vs, key);
    var r, rv := LoadedViews(Put(gs, key, g)), Put(vs, key, LoadedView(g));
    assert |r| == |rv|;
    forall j | 0 <= j < |r| ensures r[j] == rv[j] {
      LoadedViewsAt(Put(gs, key, g), j);
      if j < |gs| {
        LoadedViewsAt(gs, j);
      }
    }
  }

  lemma SpecViewsPut(ss: seq<(string, GroupSpec)>, key: string, s: GroupSpec)
    ensures SpecViews(Put(ss, key, s)) == Put(SpecViews(ss), key, SpecView(s))
  {
    var vs := SpecViews(ss);
    IndexOfSameKeys(ss, vs, key);
    var r, rv := SpecViews(Put(ss, key, s)), Put(vs, key, SpecView(s));
    assert |r| == |rv|;
    forall j | 0 <= j < |r| ensures r[j] == rv[j] {
    }
  }

  lemma LoadedConfigViewsPut(cs: seq<(string, ChestConfig)>, key: string, c: ChestConfig)
    ensures LoadedConfigViews(Put(cs, key, c)) == Put(LoadedConfigViews(cs), key, LoadedConfigView(c))
  {
    var vs := LoadedConfigViews(cs);
    forall i | 0 <= i < |cs| ensures cs[i].0 == vs[i].0 {
      LoadedConfigViewsAt(cs, i);
    }
    IndexOfSameKeys(cs, vs, key);
    var r, rv := LoadedConfigViews(Put(cs, key, c)), Put(vs, key, LoadedConfigView(c));
    assert |r| == |rv|;
    forall i | 0 <= i < |r| ensures r[i] == rv[i] {
      LoadedConfigViewsAt(Put(cs, key, c), i);
      if i < |cs| {
        LoadedConfigViewsAt(cs, i);
      }
    }
  }

  lemma SpecConfigViewsPut(ss: seq<(string, ConfigSpec)>, key: string, s: ConfigSpec)
    ensures SpecConfigViews(Put(ss, key, s)) == Put(SpecConfigViews(ss), key, SpecConfigView(s))
  {
    var vs := SpecConfigViews(ss);
    IndexOfSameKeys(ss, vs, key);
    var r, rv := SpecConfigViews(Put(ss, key, s)), Put(vs, key, SpecConfigView(s));
    assert |r| == |rv|;
    forall i | 0 <= i < |r| ensures r[i] == rv[i] {
    }
  }

  /** Putting mirrored values under the same key keeps two lists mirrored. */
  lemma PutGroupsMirror(gs: seq<(string, ChestGroup)>, ss: seq<(string, GroupSpec)>, key: string, g: ChestGroup, sg: GroupSpec)
    requires GroupsMirror(gs, ss) && GroupMirrors(g, sg)
    ensures GroupsMirror(Put(gs, key, g), Put(ss, key, sg))
  {
    LoadedViewsPut(gs, key, g);
    SpecViewsPut(ss, key, sg);
  }

  lemma PutConfigsMirror(cs: seq<(string, ChestConfig)>, ss: seq<(string, ConfigSpec)>, key: string, c: ChestConfig, sc: ConfigSpec)
    requires ConfigsMirror(cs, ss) && ConfigMirrors(c, sc)
    ensures ConfigsMirror(Put(cs, key, c), Put(ss, key, sc))
  {
    LoadedConfigViewsPut(cs, key, c);
    SpecConfigViewsPut(ss, key, sc);
  }

  /** A sampler built by the loader: fresh, valid, its entries among `its`. */
  ghost predicate Loaded(w: WeightedRandom<ContainerItem>, its: set<ContainerItem>)
    reads w
  {
    w.Valid() && forall j :: 0 <= j < |w.entries| ==> w.entries[j].item in its
  }

  /** Samplers loaded over either item set are loaded over their union. */
  lemma LoadedUnion(ws: set<WeightedRandom<ContainerItem>>, its: set<ContainerItem>,
                    ws': set<WeightedRandom<ContainerItem>>, its': set<ContainerItem>)
    requires forall w :: w in ws ==> Loaded(w, its)
    requires forall w :: w in ws' ==> Loaded(w, its')
    ensures forall w :: w in ws + ws' ==> Loaded(w, its + its')
  {
    forall w | w in ws + ws'
      ensures Loaded(w, its + its')
    {
      assert Loaded(w, its) || Loaded(w, its');
    }
  }

  /** One entry object made from its configuration and added to a sampler
      that mirrors the entries `added` so far. */
  method AddItem(w: WeightedRandom<ContainerItem>, spec: ItemSpec, weight: real,
                 ghost added: seq<(ItemSpec, real)>, ghost its: set<ContainerItem>)
    returns (x: ContainerItem)
    requires Loaded(w, its) && Mirrors(w.State(), ItemsPool(added))
    modifies w
    ensures fresh(x) && SpecOf(x) == spec && x.templateItem == spec.template
    ensures Loaded(w, its + {x}) && w.State() == AddEntry(old(w.State()), x, weight)
    ensures Mirrors(w.State(), ItemsPool(added + [(spec, weight)]))
  {
    x := new ContainerItem(spec.template, spec.slot, spec.min, spec.max);
    MirrorsAdd(w.State(), ItemsPool(added), x, weight);
    ItemsPoolSnoc(added, (spec, weight));
    w.Add(x, weight);
  }

  /** The entries of one group: an `items` section (or none) read into a
      fresh sampler. */
  method BuildGroup(env: ItemEnv, minItems: int, maxItems: int, itemsSection: Option<Section>)
    returns (group: ChestGroup, ghost its: set<ContainerItem>)
    ensures fresh(group.weightedItems) && Loaded(group.weightedItems, its)
    ensures GroupMirrors(group, GroupSpec(minItems, maxItems,
      match itemsSection case None => [] case Some(sec) => ParseItems(env, sec)))
  {
    var w := new WeightedRandom<ContainerItem>();
    its := {};
    if itemsSection.Some? {
      its := AddItems(env, w, itemsSection.value);
    }
    group := ChestGroup(minItems, maxItems, w);
  }

  /** The loop over an `items` section, adding each entry that parses. */
  method AddItems(env: ItemEnv, w: WeightedRandom<ContainerItem>, sec: Section) returns (ghost its: set<ContainerItem>)
    requires w.Valid() && w.State() == Pool([], 0.0)
    modifies w
    ensures Loaded(w, its)
    ensures Mirrors(w.State(), ItemsPool(ParseItems(env, sec)))
  {
    its := {};
    var i := 0;
    while i < |sec|
      invariant 0 <= i <= |sec|
      invariant Loaded(w, its)
      invariant Mirrors(w.State(), ItemsPool(ParseItemsUpTo(env, sec, i)))
    {
      its := AddItemAt(env, w, sec, i, its);
      i := i + 1;
    }
  }

  /** One key of an `items` section: its entry is added when it parses. */
  method AddItemAt(env: ItemEnv, w: WeightedRandom<ContainerItem>, sec: Section, i: nat, ghost its: set<ContainerItem>)
    returns (ghost its': set<ContainerItem>)
    requires i < |sec| && Loaded(w, its) && Mirrors(w.State(), ItemsPool(ParseItemsUpTo(env, sec, i)))
    modifies w
    ensures Loaded(w, its')
    ensures Mirrors(w.State(), ItemsPool(ParseItemsUpTo(env, sec, i + 1)))
  {
    ghost var added := ParseItemsUpTo(env, sec, i);
    ParseItemsStep(env, sec, i);
    its' := its;
    var itemSection := GetSection(sec, sec[i].0);
    var spec := if itemSection.Some? then ParseItem(env, itemSection.value) else None;
    if spec.Some? {
      var weight := GetDouble(itemSection.value, "weight", 1.0);
      var x := AddItem(w, spec.value, weight, added, its);
      its' := its + {x};
    }
  }

  /** One configuration file read into a configuration. */
  method LoadConfig(env: ItemEnv, doc: Section)
    returns (config: ChestConfig, ghost ps: set<WeightedRandom<ContainerItem>>, ghost its: set<ContainerItem>)
    ensures GroupObjects(config.groups) <= ps
    ensures forall w :: w in ps ==> Loaded(w, its)
    ensures ConfigMirrors(config, ParseConfig(env, doc))
  {
    var name := GetString(doc, "name", DefaultChestName);
    var globalMinItems, globalMaxItems := DefaultMinItems, DefaultMaxItems;
    var amountSection := GetSection(doc, "amount");
    if amountSection.Some? {
      globalMinItems := GetInt(amountSection.value, "min", DefaultMinItems);
      globalMaxItems := GetInt(amountSection.value, "max", DefaultMaxItems);
    }
    assert Amounts(doc) == (globalMinItems, globalMaxItems);
    var groups: seq<(string, ChestGroup)> := [];
    ps, its := {}, {};
    ghost var named: seq<(string, GroupSpec)> := [];
    var groupsSection := GetSection(doc, "groups");
    if groupsSection.Some? {
      groups, ps, its := LoadGroups(env, groupsSection.value, globalMinItems, globalMaxItems);
      named := ParseGroupsUpTo(env, groupsSection.value, globalMinItems, globalMaxItems, |groupsSection.value|);
    }
    var itemsSection := GetSection(doc, "items");
    if itemsSection.Some? {
      ghost var ws, groupItems;
      groups, ws, groupItems := AddGroup(env, groups, GlobalGroup, globalMinItems, globalMaxItems, itemsSection, named);
      ps, its := ps + ws, its + groupItems;
    }
    config := ChestConfig(name, globalMinItems, globalMaxItems, groups);
  }

  /** The loop of `loadChestConfigs` over a `groups` section. */
  method LoadGroups(env: ItemEnv, gs: Section, globalMinItems: int, globalMaxItems: int)
    returns (groups: seq<(string, ChestGroup)>, ghost ps: set<WeightedRandom<ContainerItem>>, ghost its: set<ContainerItem>)
    ensures GroupObjects(groups) <= ps
    ensures forall w :: w in ps ==> Loaded(w, its)
    ensures GroupsMirror(groups, ParseGroupsUpTo(env, gs, globalMinItems, globalMaxItems, |gs|))
  {
    groups, ps, its := [], {}, {};
    var j := 0;
    while j < |gs|
      invariant 0 <= j <= |gs|
      invariant GroupObjects(groups) <= ps
      invariant forall w :: w in ps ==> Loaded(w, its)
      invariant GroupsMirror(groups, ParseGroupsUpTo(env, gs, globalMinItems, globalMaxItems, j))
    {
      groups, ps, its := LoadGroupAt(env, gs, globalMinItems, globalMaxItems, j, groups, ps, its);
      j := j + 1;
    }
  }

  /** One key of a `groups` section: a section there becomes a group put
      under that key. */
  method LoadGroupAt(env: ItemEnv, gs: Section, globalMinItems: int, globalMaxItems: int, j: nat,
                     groups: seq<(string, ChestGroup)>, ghost ps: set<WeightedRandom<ContainerItem>>, ghost its: set<ContainerItem>)
    returns (groups': seq<(string, ChestGroup)>, ghost ps': set<WeightedRandom<ContainerItem>>, ghost its': set<ContainerItem>)
    requires j < |gs| && GroupObjects(groups) <= ps && forall w :: w in ps ==> Loaded(w, its)
    requires GroupsMirror(groups, ParseGroupsUpTo(env, gs, globalMinItems, globalMaxItems, j))
    ensures GroupObjects(groups') <= ps'
    ensures forall w :: w in ps' ==> Loaded(w, its')
    ensures GroupsMirror(groups', ParseGroupsUpTo(env, gs, globalMinItems, globalMaxItems, j + 1))
  {
    ghost var prev := ParseGroupsUpTo(env, gs, globalMinItems, globalMaxItems, j);
    ParseGroupsStep(env, gs, globalMinItems, globalMaxItems, j);
    groups', ps', its' := groups, ps, its;
    var groupKey := gs[j].0;
    var groupSection := GetSection(gs, groupKey);
    if groupSection.Some? {
      var g := groupSection.value;
      ghost var ws, groupItems;
      groups', ws, groupItems := AddGroup(env, groups, groupKey, GetInt(g, "min", globalMinItems), GetInt(g, "max", globalMaxItems),
        GetSection(g, "items"), prev);
      assert ParseGroup(env, g, globalMinItems, globalMaxItems) == GroupSpec(GetInt(g, "min", globalMinItems),
        GetInt(g, "max", globalMaxItems), match GetSection(g, "items") case None => [] case Some(sec) => ParseItems(env, sec));
      LoadedUnion(ps, its, ws, groupItems);
      ps', its' := ps + ws, its + groupItems;
    }
  }

  lemma GroupObjectsPut(gs: seq<(string, ChestGroup)>, key: string, g: ChestGroup)
    ensures GroupObjects(Put(gs, key, g)) <= GroupObjects(gs) + {g.weightedItems}
  {
    var r := Put(gs, key, g);
    forall j | 0 <= j < |r|
      ensures r[j].1.weightedItems in GroupObjects(gs) + {g.weightedItems}
    {
      if r[j].1 != g {
        assert r[j] == gs[j];
      }
    }
  }

  /** One group built and put under its key. */
  method AddGroup(env: ItemEnv, groups: seq<(string, ChestGroup)>, groupKey: string, minItems: int, maxItems: int,
                  itemsSection: Option<Section>, ghost specs: seq<(string, GroupSpec)>)
    returns (r: seq<(string, ChestGroup)>, ghost ws: set<WeightedRandom<ContainerItem>>, ghost its: set<ContainerItem>)
    requires GroupsMirror(groups, specs)
    ensures GroupObjects(r) <= GroupObjects(groups) + ws
    ensures forall w :: w in ws ==> Loaded(w, its)
    ensures GroupsMirror(r, Put(specs, groupKey, GroupSpec(minItems, maxItems,
      match itemsSection case None => [] case Some(sec) => ParseItems(env, sec))))
  {
    assert forall w :: w in GroupObjects(groups) ==> allocated(w);
    var group, groupItems := BuildGroup(env, minItems, maxItems, itemsSection);
    PutGroupsMirror(groups, specs, groupKey, group, GroupSpec(minItems, maxItems,
      match itemsSection case None => [] case Some(sec) => ParseItems(env, sec)));
    GroupObjectsPut(groups, groupKey, group);
    r := Put(groups, groupKey, group);
    ws, its := {group.weightedItems}, groupItems;
  }

  lemma ConfigObjectsPut(cs: seq<(string, ChestConfig)>, key: string, c: ChestConfig)
    ensures ConfigObjects(Put(cs, key, c)) <= ConfigObjects(cs) + GroupObjects(c.groups)
  {
    var r := Put(cs, key, c);
    forall i, j | 0 <= i < |r| && 0 <= j < |r[i].1.groups|
      ensures r[i].1.groups[j].1.weightedItems in ConfigObjects(cs) + GroupObjects(c.groups)
    {
      if r[i].1 != c {
        assert r[i] == cs[i];
      }
    }
  }

  // Filling a chest, as values.

  /** The random draws one group's fill consumes: the number of entries, the
      sampler fraction and the amount of the debug `buildItem` of each pick,
      then the poll's shuffle and amounts. */
  datatype GroupDraws = GroupDraws(count: nat, picks: nat -> real, debugAmounts: nat -> nat,
                                   shuffle: nat -> nat, amounts: nat -> nat)

  /** A group as filling reads it. */
  datatype GroupValue = GroupValue(minItems: int, maxItems: int, pool: Pool<ContainerItem>)

  function GroupValues(gs: seq<(string, ChestGroup)>): (r: seq<GroupValue>)
    reads GroupObjects(gs)
    ensures |r| == |gs|
    ensures forall j :: 0 <= j < |gs| ==>
      r[j] == GroupValue(gs[j].1.minItems, gs[j].1.maxItems, gs[j].1.weightedItems.State())
  {
    if |gs| == 0 then []
    else
      assert GroupObjects(gs[1..]) <= GroupObjects(gs) by {
        forall j | 0 <= j < |gs[1..]| ensures gs[1..][j].1.weightedItems in GroupObjects(gs) {
          assert gs[1..][j] == gs[j + 1];
        }
      }
      [GroupValue(gs[0].1.minItems, gs[0].1.maxItems, gs[0].1.weightedItems.State())] + GroupValues(gs[1..])
  }

  /** Every entry of every group has a template in `tmpl`. */
  ghost predicate Covers(groups: seq<GroupValue>, tmpl: map<ContainerItem, ItemStack>) {
    forall h, j :: 0 <= h < |groups| && 0 <= j < |groups[h].pool.entries| ==> groups[h].pool.entries[j].item in tmpl
  }

  /** The entries picked so far, every entry's template, and whether the
      debug `buildItem` threw. */
  datatype Selection = Selection(items: seq<ContainerItem>, tmpl: map<ContainerItem, ItemStack>, threw: bool)

  lemma CoversSameKeys(groups: seq<GroupValue>, t: map<ContainerItem, ItemStack>, u: map<ContainerItem, ItemStack>)
    requires Covers(groups, t) && t.Keys == u.Keys
    ensures Covers(groups, u)
  {
    forall h, j | 0 <= h < |groups| && 0 <= j < |groups[h].pool.entries|
      ensures groups[h].pool.entries[j].item in u
    {
      assert groups[h].pool.entries[j].item in t;
    }
  }

  /** One pick of `fillChest`: a pick that yields an entry adds it, and the
      debug message builds a stack from it (which may resolve its template);
      a build that yields no stack throws. */
  function SelectStep(p: Pool<ContainerItem>, d: GroupDraws, custom: map<string, ItemStack>, i: nat, s: Selection): (r: Selection)
    requires forall j :: 0 <= j < |p.entries| ==> p.entries[j].item in s.tmpl
    ensures r.tmpl.Keys == s.tmpl.Keys
    ensures r.items == s.items || exists j :: 0 <= j < |p.entries| && r.items == s.items + [p.entries[j].item]
  {
    match Choose(p, d.picks(i))
    case None => s
    case Some(x) =>
      ChooseYieldsAddedItem(p, d.picks(i));
      var built := Built(s.tmpl[x], x.min, x.max, d.debugAmounts(i));
      Selection(s.items + [x], s.tmpl[x := Resolved(s.tmpl[x], custom)], built.None?)
  }

  /** The picking loop of `fillChest` from pick i of `count`; a throw ends
      the fill. */
  function SelectFrom(p: Pool<ContainerItem>, count: int, d: GroupDraws, custom: map<string, ItemStack>,
                      i: nat, s: Selection): (r: Selection)
    requires forall j :: 0 <= j < |p.entries| ==> p.entries[j].item in s.tmpl
    ensures r.tmpl.Keys == s.tmpl.Keys
    ensures forall x :: x in r.items ==> x in s.items || exists j :: 0 <= j < |p.entries| && p.entries[j].item == x
    decreases if i < count then count - i else 0
  {
    if s.threw || i >= count then s
    else
      var t := SelectStep(p, d, custom, i, s);
      assert forall x :: x in t.items ==> x in s.items || exists j :: 0 <= j < |p.entries| && p.entries[j].item == x;
      SelectFrom(p, count, d, custom, i + 1, t)
  }

  /** Picking only appends to the entries already picked. */
  lemma {:induction false} SelectionExtends(p: Pool<ContainerItem>, count: int, d: GroupDraws, custom: map<string, ItemStack>,
                                            i: nat, s: Selection)
    requires forall j :: 0 <= j < |p.entries| ==> p.entries[j].item in s.tmpl
    ensures var r := SelectFrom(p, count, d, custom, i, s);
      |s.items| <= |r.items| && r.items[..|s.items|] == s.items
    decreases if i < count then count - i else 0
  {
    if !s.threw && i < count {
      ChooseYieldsAddedItem(p, d.picks(i));
      match Choose(p, d.picks(i))
      case None =>
        SelectionExtends(p, count, d, custom, i + 1, s);
      case Some(x) =>
        var built := Built(s.tmpl[x], x.min, x.max, d.debugAmounts(i));
        var t := Selection(s.items + [x], s.tmpl[x := Resolved(s.tmpl[x], custom)], built.None?);
        SelectionExtends(p, count, d, custom, i + 1, t);
        var r := SelectFrom(p, count, d, custom, i, s);
        assert r == SelectFrom(p, count, d, custom, i + 1, t);
        assert r.items[..|s.items|] == r.items[..|t.items|][..|s.items|];
    }
  }

  /** The number of picks: never more than asked for, exactly that many when
      the group has entries and nothing throws, none from an empty group
      (which also leaves every template as it was). */
  lemma {:induction false} SelectionCount(p: Pool<ContainerItem>, count: int, d: GroupDraws, custom: map<string, ItemStack>,
                                          i: nat, s: Selection)
    requires forall j :: 0 <= j < |p.entries| ==> p.entries[j].item in s.tmpl
    requires !s.threw
    ensures var r := SelectFrom(p, count, d, custom, i, s);
      && |r.items| <= |s.items| + (if i < count then count - i else 0)
      && (|p.entries| > 0 && !r.threw ==> |r.items| == |s.items| + (if i < count then count - i else 0))
      && (|p.entries| == 0 ==> r == s)
    decreases if i < count then count - i else 0
  {
    if i < count {
      ChooseYieldsAddedItem(p, d.picks(i));
      match Choose(p, d.picks(i))
      case None =>
        SelectionCount(p, count, d, custom, i + 1, s);
      case Some(x) =>
        var built := Built(s.tmpl[x], x.min, x.max, d.debugAmounts(i));
        var t := Selection(s.items + [x], s.tmpl[x := Resolved(s.tmpl[x], custom)], built.None?);
        if !built.None? {
          SelectionCount(p, count, d, custom, i + 1, t);
        }
    }
  }

  /** No template (and no custom item) is AIR. */
  ghost predicate NoAir(tmpl: map<ContainerItem, ItemStack>, custom: map<string, ItemStack>) {
    (forall x :: x in tmpl ==> tmpl[x].material != AIR) && (forall id :: id in custom ==> custom[id].material != AIR)
  }

  /** The debug build throws only on an AIR template: with none, picking
      never throws and keeps it so. */
  lemma {:induction false} SelectionThrowsOnlyOnAir(p: Pool<ContainerItem>, count: int, d: GroupDraws, custom: map<string, ItemStack>,
                                                    i: nat, s: Selection)
    requires forall j :: 0 <= j < |p.entries| ==> p.entries[j].item in s.tmpl
    requires !s.threw && NoAir(s.tmpl, custom)
    ensures !SelectFrom(p, count, d, custom, i, s).threw && NoAir(SelectFrom(p, count, d, custom, i, s).tmpl, custom)
    decreases if i < count then count - i else 0
  {
    if i < count {
      ChooseYieldsAddedItem(p, d.picks(i));
      match Choose(p, d.picks(i))
      case None =>
        SelectionThrowsOnlyOnAir(p, count, d, custom, i + 1, s);
      case Some(x) =>
        var built := Built(s.tmpl[x], x.min, x.max, d.debugAmounts(i));
        var t := Selection(s.items + [x], s.tmpl[x := Resolved(s.tmpl[x], custom)], built.None?);
        assert !t.threw && NoAir(t.tmpl, custom);
        SelectionThrowsOnlyOnAir(p, count, d, custom, i + 1, t);
    }
  }

  /** The chest's inventory, every entry's template, and whether the fill
      threw. */
  datatype FillState = FillState(inv: Inventory, tmpl: map<ContainerItem, ItemStack>, threw: bool)

  /** One group of `fillChest`: draw its size, pick that many entries,
      then poll exactly the picked entries into the chest. */
  function GroupStep(grp: GroupValue, d: GroupDraws, custom: map<string, ItemStack>, s: FillState): (r: FillState)
    requires forall j :: 0 <= j < |grp.pool.entries| ==> grp.pool.entries[j].item in s.tmpl
    ensures r.tmpl.Keys == s.tmpl.Keys && |r.inv| == |s.inv|
  {
    var sel := SelectFrom(grp.pool, DrawBetween(grp.minItems, grp.maxItems, d.count), d, custom, 0, Selection([], s.tmpl, false));
    if sel.threw then FillState(s.inv, sel.tmpl, true)
    else
      assert forall x :: x in sel.items ==> x in sel.tmpl by {
        forall x | x in sel.items ensures x in sel.tmpl {
          var j :| 0 <= j < |grp.pool.entries| && grp.pool.entries[j].item == x;
        }
      }
      var init := PollState(s.inv, Shuffled(EmptySlotsUpTo(s.inv, |s.inv|), d.shuffle), 0, sel.tmpl);
      var fin := PollFrom(sel.items, 0, init, |sel.items|, d.amounts, custom);
      FillState(fin.inv, fin.tmpl, false)
  }

  /** The group loop of `fillChest` from group g on; a throw ends it. */
  function FillFrom(groups: seq<GroupValue>, g: nat, s: FillState, draws: nat -> GroupDraws,
                    custom: map<string, ItemStack>): (r: FillState)
    requires g <= |groups| && Covers(groups, s.tmpl)
    ensures r.tmpl.Keys == s.tmpl.Keys && |r.inv| == |s.inv|
    decreases |groups| - g
  {
    if s.threw || g == |groups| then s
    else
      var t := GroupStep(groups[g], draws(g), custom, s);
      CoversSameKeys(groups, s.tmpl, t.tmpl);
      FillFrom(groups, g + 1, t, draws, custom)
  }

  /** Filling never takes an item out of the chest or replaces one: every
      slot that held something still holds it. */
  lemma {:induction false} FillKeepsOccupiedSlots(groups: seq<GroupValue>, g: nat, s: FillState, draws: nat -> GroupDraws,
                                                  custom: map<string, ItemStack>)
    requires g <= |groups| && Covers(groups, s.tmpl)
    ensures var r := FillFrom(groups, g, s, draws, custom);
      forall i :: 0 <= i < |s.inv| && s.inv[i].Some? ==> r.inv[i] == s.inv[i]
    decreases |groups| - g
  {
    if !s.threw && g < |groups| {
      var d := draws(g);
      var t := GroupStep(groups[g], d, custom, s);
      var sel := SelectFrom(groups[g].pool, DrawBetween(groups[g].minItems, groups[g].maxItems, d.count), d, custom,
                            0, Selection([], s.tmpl, false));
      if !sel.threw {
        var init := PollState(s.inv, Shuffled(EmptySlotsUpTo(s.inv, |s.inv|), d.shuffle), 0, sel.tmpl);
        InitialKeeps(s.inv, d.shuffle, sel.tmpl);
        PollKeepsOccupiedSlots(sel.items, 0, init, |sel.items|, d.amounts, custom, s.inv);
      }
      CoversSameKeys(groups, s.tmpl, t.tmpl);
      FillKeepsOccupiedSlots(groups, g + 1, t, draws, custom);
    }
  }

  /** Groups without entries put nothing into the chest and change no
      template. */
  lemma {:induction false} EmptyGroupsFillNothing(groups: seq<GroupValue>, g: nat, s: FillState, draws: nat -> GroupDraws,
                                                  custom: map<string, ItemStack>)
    requires g <= |groups| && Covers(groups, s.tmpl)
    requires forall h :: 0 <= h < |groups| ==> |groups[h].pool.entries| == 0
    ensures FillFrom(groups, g, s, draws, custom) == s
    decreases |groups| - g
  {
    if !s.threw && g < |groups| {
      var d := draws(g);
      var sel := SelectFrom(groups[g].pool, DrawBetween(groups[g].minItems, groups[g].maxItems, d.count), d, custom,
                            0, Selection([], s.tmpl, false));
      SelectionCount(groups[g].pool, DrawBetween(groups[g].minItems, groups[g].maxItems, d.count), d, custom,
                     0, Selection([], s.tmpl, false));
      var init := PollState(s.inv, Shuffled(EmptySlotsUpTo(s.inv, |s.inv|), d.shuffle), 0, sel.tmpl);
      assert PollFrom(sel.items, 0, init, |sel.items|, d.amounts, custom) == init;
      assert GroupStep(groups[g], d, custom, s) == s;
      EmptyGroupsFillNothing(groups, g + 1, s, draws, custom);
    }
  }

  /** The configuration `fillChest` uses for a name: that configuration, or
      else the fallback one. */
  function ConfigFor(configs: seq<(string, ChestConfig)>, name: string): (r: Option<ChestConfig>)
    ensures Lookup(configs, name).Some? ==> r == Lookup(configs, name)
    ensures Lookup(configs, name).None? ==> r == Lookup(configs, FallbackKey)
  {
    match Lookup(configs, name)
    case Some(c) => Some(c)
    case None => Lookup(configs, FallbackKey)
  }

  /** `shouldGenerateChest()`: the fraction r against the path
      `chest.chance`, that is the key `chance` of the sub-section `chest`
      (0.05 when the section or the number is missing). */
  function ShouldGenerateChest(config: Section, r: real): (b: bool)
    ensures GetSection(config, "chest").None? ==> (b <==> r <= 0.05)
    ensures GetSection(config, "chest").Some? ==>
      var chance := Get(GetSection(config, "chest").value, "chance");
      && (chance.None? ==> (b <==> r <= 0.05))
      && (chance.Some? && chance.value.kind.DblK? ==> (b <==> r <= chance.value.kind.d))
      && (chance.Some? && chance.value.kind.IntK? ==> (b <==> r <= chance.value.kind.i as real))
  {
    var chest := GetSection(config, "chest");
    r <= if chest.Some? then GetDouble(chest.value, "chance", 0.05) else 0.05
  }

  /** A top-level key spelled `chest.chance` is not the path: only the
      nested form sets the chance. */
  lemma ChestChanceIsNested()
    ensures !ShouldGenerateChest([("chest.chance", Value("0.5", DblK(0.5)))], 0.3)
    ensures ShouldGenerateChest([("chest", Value("", SectionK([("chance", Value("0.5", DblK(0.5)))])))], 0.3)
  {
  }

  /** The configuration `createFallbackConfig()` registers: one "global"
      group whose sampler receives the six fallback entries in order. */
  method BuildFallback() returns (fallback: ChestConfig, ghost ps: set<WeightedRandom<ContainerItem>>, ghost its: set<ContainerItem>)
    ensures GroupObjects(fallback.groups) <= ps
    ensures forall w :: w in ps ==> Loaded(w, its)
    ensures ConfigMirrors(fallback, FallbackSpec())
  {
    var weightedItems := new WeightedRandom<ContainerItem>();
    its := {};
    assert FallbackItems()[..0] == [];
    its := AddFallbackItems(weightedItems, 0, its);
    its := AddFallbackItems(weightedItems, 3, its);
    var globalGroup := ChestGroup(DefaultMinItems, DefaultMaxItems, weightedItems);
    fallback := ChestConfig(FallbackName, DefaultMinItems, DefaultMaxItems, [(GlobalGroup, globalGroup)]);
    FallbackMirrors(fallback);
    ps := {weightedItems};
  }

  /** A fallback-shaped configuration whose sampler holds the six entries
      mirrors the fallback specification. */
  lemma FallbackMirrors(c: ChestConfig)
    requires |c.groups| == 1 && c.groups[0].0 == GlobalGroup
    requires c.name == FallbackName && c.globalMinItems == DefaultMinItems && c.globalMaxItems == DefaultMaxItems
    requires c.groups[0].1.minItems == DefaultMinItems && c.groups[0].1.maxItems == DefaultMaxItems
    requires Mirrors(c.groups[0].1.weightedItems.State(), ItemsPool(FallbackItems()[..6]))
    ensures ConfigMirrors(c, FallbackSpec())
  {
    var f := FallbackItems();
    assert f[..6] == f;
    assert GroupMirrors(c.groups[0].1, FallbackSpec().groups[0].1);
  }

  /** Three fallback entries from the k-th on, in order. */
  method AddFallbackItems(w: WeightedRandom<ContainerItem>, k: nat, ghost its: set<ContainerItem>)
    returns (ghost its': set<ContainerItem>)
    requires k <= 3 && Loaded(w, its) && Mirrors(w.State(), ItemsPool(FallbackItems()[..k]))
    modifies w
    ensures Loaded(w, its') && Mirrors(w.State(), ItemsPool(FallbackItems()[..k + 3]))
  {
    its' := AddFallbackItem(w, k, its);
    its' := AddFallbackItem(w, k + 1, its');
    its' := AddFallbackItem(w, k + 2, its');
  }

  /** The k-th fallback entry (STONE, DIRT, COAL, IRON_INGOT, GOLD_INGOT,
      DIAMOND with weights 10, 8, 5, 3, 2, 1) added to the sampler. */
  method AddFallbackItem(w: WeightedRandom<ContainerItem>, k: nat, ghost its: set<ContainerItem>)
    returns (ghost its': set<ContainerItem>)
    requires k < 6 && Loaded(w, its) && Mirrors(w.State(), ItemsPool(FallbackItems()[..k]))
    modifies w
    ensures Loaded(w, its') && Mirrors(w.State(), ItemsPool(FallbackItems()[..k + 1]))
  {
    var f := FallbackItems();
    assert f[..k + 1] == f[..k] + [f[k]];
    var x := AddItem(w, f[k].0, f[k].1, f[..k], its);
    its' := its + {x};
  }

  /** A loaded configuration put into a loaded table: the objects stay
      covered and the table stays the mirror of its specification. */
  lemma PutLoaded(cs: seq<(string, ChestConfig)>, ps: set<WeightedRandom<ContainerItem>>, its: set<ContainerItem>,
                  key: string, c: ChestConfig, ws: set<WeightedRandom<ContainerItem>>, xs: set<ContainerItem>,
                  specs: seq<(string, ConfigSpec)>, spec: ConfigSpec)
    requires ConfigObjects(cs) <= ps && forall w :: w in ps ==> Loaded(w, its)
    requires GroupObjects(c.groups) <= ws && forall w :: w in ws ==> Loaded(w, xs)
    requires ConfigsMirror(cs, specs) && ConfigMirrors(c, spec)
    ensures ConfigObjects(Put(cs, key, c)) <= ps + ws && forall w :: w in ps + ws ==> Loaded(w, its + xs)
    ensures ConfigsMirror(Put(cs, key, c), Put(specs, key, spec))
  {
    PutConfigsMirror(cs, specs, key, c, spec);
    ConfigObjectsPut(cs, key, c);
    LoadedUnion(ps, its, ws, xs);
  }

  /** One file of the `chests` listing: a `.yml` file is loaded and put
      under its name; any other file is skipped. */
  method LoadConfigAt(env: ItemEnv, files: seq<(string, Section)>, i: nat, configs: seq<(string, ChestConfig)>,
                      ghost ps: set<WeightedRandom<ContainerItem>>, ghost its: set<ContainerItem>)
    returns (configs': seq<(string, ChestConfig)>, ghost ps': set<WeightedRandom<ContainerItem>>, ghost its': set<ContainerItem>)
    requires i < |files|
    requires ConfigObjects(configs) <= ps && forall w :: w in ps ==> Loaded(w, its)
    requires ConfigsMirror(configs, ConfigsUpTo(env, files, i))
    ensures ConfigObjects(configs') <= ps' && forall w :: w in ps' ==> Loaded(w, its')
    ensures ConfigsMirror(configs', ConfigsUpTo(env, files, i + 1))
  {
    configs', ps', its' := configs, ps, its;
    var fileName := files[i].0;
    if EndsWith(fileName, ".yml") {
      assert forall w :: w in ps ==> allocated(w);
      var chestConfig, ws, xs := LoadConfig(env, files[i].1);
      PutLoaded(configs, ps, its, ConfigName(fileName), chestConfig, ws, xs,
        ConfigsUpTo(env, files, i), ParseConfig(env, files[i].1));
      configs', ps', its' := Put(configs, ConfigName(fileName), chestConfig), ps + ws, its + xs;
    }
  }

  /** `createFallbackConfig()`: the fallback configuration put under
      "fallback". */
  method CreateFallbackConfig(configs: seq<(string, ChestConfig)>, ghost specs: seq<(string, ConfigSpec)>,
                              ghost ps: set<WeightedRandom<ContainerItem>>, ghost its: set<ContainerItem>)
    returns (configs': seq<(string, ChestConfig)>, ghost ps': set<WeightedRandom<ContainerItem>>, ghost its': set<ContainerItem>)
    requires ConfigObjects(configs) <= ps && forall w :: w in ps ==> Loaded(w, its)
    requires ConfigsMirror(configs, specs)
    ensures Lookup(configs', FallbackKey).Some?
    ensures ConfigObjects(configs') <= ps' && forall w :: w in ps' ==> Loaded(w, its')
    ensures ConfigsMirror(configs', Put(specs, FallbackKey, FallbackSpec()))
  {
    assert forall w :: w in ps ==> allocated(w);
    var fallback, ws, xs := BuildFallback();
    PutLoaded(configs, ps, its, FallbackKey, fallback, ws, xs, specs, FallbackSpec());
    configs', ps', its' := Put(configs, FallbackKey, fallback), ps + ws, its + xs;
  }

  /** The manager. `pools` and `items` are the samplers and entry objects of
      the loaded configurations. */
  class EnhancedChestManager {
    var chestConfigs: seq<(string, ChestConfig)>
    ghost var pools: set<WeightedRandom<ContainerItem>>
    ghost var items: set<ContainerItem>

    ghost predicate Valid()
      reads this, pools
    {
      ConfigObjects(chestConfigs) <= pools && forall w :: w in pools ==> Loaded(w, items)
    }

    /** Every entry object's current template. */
    ghost function Templates(): map<ContainerItem, ItemStack>
      reads this, items
    {
      map x | x in items :: x.templateItem
    }

    constructor (env: ItemEnv, chests: Option<seq<(string, Section)>>)
      ensures Valid() && ConfigsMirror(chestConfigs, LoadedConfigs(env, chests))
    {
      chestConfigs := [];
      pools, items := {}, {};
      new;
      LoadChestConfigs(env, chests);
    }

    /** `loadChestConfigs()`; `chests` is the listing of the `chests`
        directory with each file's document, or None when it is missing.
        The table is cleared, refilled file by file and, when still empty,
        given the fallback configuration. */
    method LoadChestConfigs(env: ItemEnv, chests: Option<seq<(string, Section)>>)
      modifies this
      ensures Valid() && ConfigsMirror(chestConfigs, LoadedConfigs(env, chests))
    {
      var configs: seq<(string, ChestConfig)> := [];
      ghost var ps: set<WeightedRandom<ContainerItem>>, its: set<ContainerItem> := {}, {};
      ghost var specs: seq<(string, ConfigSpec)> := [];
      if chests.Some? {
        var files := chests.value;
        var i := 0;
        while i < |files|
          invariant 0 <= i <= |files|
          invariant ConfigObjects(configs) <= ps && forall w :: w in ps ==> Loaded(w, its)
          invariant ConfigsMirror(configs, ConfigsUpTo(env, files, i))
        {
          configs, ps, its := LoadConfigAt(env, files, i, configs, ps, its);
          i := i + 1;
        }
        specs := ConfigsUpTo(env, files, |files|);
      }
      if |configs| == 0 {
        assert |specs| == |SpecConfigViews(specs)| == |LoadedConfigViews(configs)| == 0;
        configs, ps, its := CreateFallbackConfig(configs, specs, ps, its);
        specs := Put(specs, FallbackKey, FallbackSpec());
      } else {
        assert |specs| == |SpecConfigViews(specs)| == |LoadedConfigViews(configs)| > 0;
      }
      Install(configs, ps, its, specs);
    }

    /** The refilled table and its objects put in place. */
    method Install(configs: seq<(string, ChestConfig)>, ghost ps: set<WeightedRandom<ContainerItem>>,
                   ghost its: set<ContainerItem>, ghost specs: seq<(string, ConfigSpec)>)
      requires ConfigObjects(configs) <= ps && forall w :: w in ps ==> Loaded(w, its)
      requires ConfigsMirror(configs, specs)
      modifies this
      ensures chestConfigs == configs
      ensures Valid() && ConfigsMirror(chestConfigs, specs)
    {
      assert (this as object) !in ps;
      chestConfigs, pools, items := configs, ps, its;
    }

    /** `getRandomChestConfig()`: "fallback" when nothing is loaded, else
        the name of the configuration the draw selects. */
    function GetRandomChestConfig(draw: nat): (name: string)
      reads this
      ensures |chestConfigs| == 0 ==> name == FallbackKey
      ensures |chestConfigs| > 0 ==> Lookup(chestConfigs, name).Some?
      ensures draw < |chestConfigs| ==> name == chestConfigs[draw].0
    {
      if |chestConfigs| == 0 then FallbackKey
      else
        var k := draw % |chestConfigs|;
        assert draw < |chestConfigs| ==> k == draw;
        assert chestConfigs[k].0 == Keys(chestConfigs)[k];
        chestConfigs[k].0
    }

    /** `fillChest(chest, name)`. `stillChest` says whether the block is
        still a chest, `draws(g)` are the random draws of group g and
        `custom` is the custom-item registry. The configuration's name (when
        it has one) goes on the chest's snapshot, and the block takes it only
        when the final update runs, that is when the fill completes;
        `completed` is false when nothing was filled or the fill threw. */
    method FillChest(chest: ChestState?, stillChest: bool, chestConfigName: string,
                     draws: nat -> GroupDraws, custom: map<string, ItemStack>) returns (completed: bool)
      requires Valid()
      modifies (if chest != null then {chest, chest.inventory} else {}), items
      ensures Valid()
      ensures chest == null ==> !completed && Templates() == old(Templates())
      ensures chest != null && ConfigFor(chestConfigs, chestConfigName).None? ==>
        && !completed && chest.customName == old(chest.customName)
        && chest.inventory[..] == old(chest.inventory[..]) && Templates() == old(Templates())
      ensures chest != null && ConfigFor(chestConfigs, chestConfigName).Some? ==>
        var config := ConfigFor(chestConfigs, chestConfigName).value;
        chest.customName == (if completed && config.name != "" then Some(config.name) else old(chest.customName))
      ensures chest != null && ConfigFor(chestConfigs, chestConfigName).Some? && !stillChest ==>
        !completed && chest.inventory[..] == old(chest.inventory[..]) && Templates() == old(Templates())
      ensures chest != null && ConfigFor(chestConfigs, chestConfigName).Some? && stillChest ==>
        var config := ConfigFor(chestConfigs, chestConfigName).value;
        && Covers(GroupValues(config.groups), old(Templates()))
        && var fin := FillFrom(GroupValues(config.groups), 0,
                               FillState(old(chest.inventory[..]), old(Templates()), false), draws, custom);
           chest.inventory[..] == fin.inv && Templates() == fin.tmpl && completed == !fin.threw
    {
      if chest == null {
        return false;
      }
      var config := Lookup(chestConfigs, chestConfigName);
      if config.None? {
        config := Lookup(chestConfigs, FallbackKey);
        if config.None? {
          return false;
        }
      }
      completed := FillWithConfig(chest, config.value, stillChest, draws, custom);
    }

    /** `fillChest` once its configuration is found: the name is set on the
        snapshot, a block that is still a chest is filled group by group, and
        `safeUpdateChestWithoutLock` then commits the snapshot's name. */
    method FillWithConfig(chest: ChestState, config: ChestConfig, stillChest: bool,
                          draws: nat -> GroupDraws, custom: map<string, ItemStack>) returns (completed: bool)
      requires Valid() && exists i :: 0 <= i < |chestConfigs| && chestConfigs[i].1 == config
      modifies chest, chest.inventory, items
      ensures Valid()
      ensures chest.customName == (if completed && config.name != "" then Some(config.name) else old(chest.customName))
      ensures !stillChest ==> !completed && chest.inventory[..] == old(chest.inventory[..]) && Templates() == old(Templates())
      ensures stillChest ==>
        && Covers(GroupValues(config.groups), old(Templates()))
        && var fin := FillFrom(GroupValues(config.groups), 0,
                               FillState(old(chest.inventory[..]), old(Templates()), false), draws, custom);
           chest.inventory[..] == fin.inv && Templates() == fin.tmpl && completed == !fin.threw
    {
      var snapshotName := if config.name != "" then Some(config.name) else chest.customName;
      ghost var (inv0, tmpl0) := (chest.inventory[..], Templates());
      ConfigIsLoaded(config);
      LoadedGroupsCovered(config.groups);
      ghost var fin := FillFrom(GroupValues(config.groups), 0, FillState(inv0, tmpl0, false), draws, custom);
      completed := FillIfStillChest(chest.inventory, config, stillChest, draws, custom);
      ghost var (inv1, tmpl1) := (chest.inventory[..], Templates());
      assert stillChest ==> inv1 == fin.inv && tmpl1 == fin.tmpl && completed == !fin.threw;
      assert !stillChest ==> !completed && inv1 == inv0 && tmpl1 == tmpl0;
      chest.customName := if completed then snapshotName else chest.customName;
      assert chest.inventory[..] == inv1 && Templates() == tmpl1;
    }

    /** The fill of `fillChest`: nothing when the block is no longer a chest,
        otherwise every group of the configuration in turn. */
    method FillIfStillChest(inventory: array<Option<ItemStack>>, config: ChestConfig, stillChest: bool,
                            draws: nat -> GroupDraws, custom: map<string, ItemStack>) returns (completed: bool)
      requires Valid() && exists i :: 0 <= i < |chestConfigs| && chestConfigs[i].1 == config
      modifies inventory, items
      ensures Valid()
      ensures !stillChest ==> !completed && inventory[..] == old(inventory[..]) && Templates() == old(Templates())
      ensures stillChest ==>
        && Covers(GroupValues(config.groups), old(Templates()))
        && var fin := FillFrom(GroupValues(config.groups), 0,
                               FillState(old(inventory[..]), old(Templates()), false), draws, custom);
           inventory[..] == fin.inv && Templates() == fin.tmpl && completed == !fin.threw
    {
      if !stillChest {
        return false;
      }
      ConfigIsLoaded(config);
      LoadedGroupsCovered(config.groups);
      completed := FillGroups(inventory, config.groups, draws, custom);
    }

    /** A configuration found by name belongs to the loaded ones. */
    lemma ConfigIsLoaded(c: ChestConfig)
      requires Valid() && exists i :: 0 <= i < |chestConfigs| && chestConfigs[i].1 == c
      ensures GroupObjects(c.groups) <= pools
    {
      var i :| 0 <= i < |chestConfigs| && chestConfigs[i].1 == c;
      forall j | 0 <= j < |c.groups| ensures c.groups[j].1.weightedItems in ConfigObjects(chestConfigs) {
        assert c.groups[j].1.weightedItems == chestConfigs[i].1.groups[j].1.weightedItems;
      }
    }

    /** The entries of loaded groups all have templates. */
    lemma LoadedGroupsCovered(groups: seq<(string, ChestGroup)>)
      requires Valid() && GroupObjects(groups) <= pools
      ensures Covers(GroupValues(groups), Templates())
    {
      forall h, j | 0 <= h < |groups| && 0 <= j < |GroupValues(groups)[h].pool.entries|
        ensures GroupValues(groups)[h].pool.entries[j].item in Templates()
      {
        assert groups[h].1.weightedItems in pools;
      }
    }

    /** The group loop of `fillChest`. */
    method FillGroups(inventory: array<Option<ItemStack>>, groups: seq<(string, ChestGroup)>,
                      draws: nat -> GroupDraws, custom: map<string, ItemStack>) returns (completed: bool)
      requires Valid() && GroupObjects(groups) <= pools && Covers(GroupValues(groups), Templates())
      modifies inventory, items
      ensures Valid()
      ensures var fin := FillFrom(GroupValues(groups), 0, FillState(old(inventory[..]), old(Templates()), false), draws, custom);
        inventory[..] == fin.inv && Templates() == fin.tmpl && completed == !fin.threw
    {
      ghost var gv := GroupValues(groups);
      ghost var final := FillFrom(gv, 0, FillState(inventory[..], Templates(), false), draws, custom);
      var g := 0;
      while g < |groups|
        invariant 0 <= g <= |groups|
        invariant Valid() && GroupValues(groups) == gv && Covers(gv, Templates())
        invariant FillFrom(gv, g, FillState(inventory[..], Templates(), false), draws, custom) == final
      {
        var threw := FillGroup(inventory, groups[g].1, draws(g), custom);
        LoadedGroupsCovered(groups);
        if threw {
          assert FillFrom(gv, g + 1, FillState(inventory[..], Templates(), true), draws, custom) == final;
          return false;
        }
        g := g + 1;
      }
      return true;
    }

    /** One group of the loop of `fillChest`. */
    method FillGroup(inventory: array<Option<ItemStack>>, group: ChestGroup, d: GroupDraws, custom: map<string, ItemStack>)
      returns (threw: bool)
      requires Valid() && group.weightedItems in pools
      requires forall j :: 0 <= j < |group.weightedItems.entries| ==> group.weightedItems.entries[j].item in Templates()
      modifies inventory, items
      ensures Valid()
      ensures GroupStep(GroupValue(group.minItems, group.maxItems, group.weightedItems.State()), d, custom,
                        FillState(old(inventory[..]), old(Templates()), false))
              == FillState(inventory[..], Templates(), threw)
    {
      var itemsAmount := if group.minItems >= group.maxItems then group.minItems
        else group.minItems + d.count % (group.maxItems - group.minItems + 1);
      var selectedItems;
      selectedItems, threw := SelectItems(group.weightedItems, itemsAmount, d, custom);
      if threw {
        return;
      }
      PollInto(selectedItems, inventory, d, custom);
    }

    /** `new ContainerPoll(n, n, selectedItems).run(inventory, random)`. */
    method PollInto(selectedItems: seq<ContainerItem>, inventory: array<Option<ItemStack>>, d: GroupDraws, custom: map<string, ItemStack>)
      requires Valid() && forall x :: x in selectedItems ==> x in items
      modifies inventory, items
      ensures Valid()
      ensures var init := PollState(old(inventory[..]), Shuffled(EmptySlotsUpTo(old(inventory[..]), inventory.Length), d.shuffle),
                                    0, old(Templates()));
        var fin := PollFrom(selectedItems, 0, init, |selectedItems|, d.amounts, custom);
        inventory[..] == fin.inv && Templates() == fin.tmpl
    {
      var poll := new ContainerPoll(|selectedItems|, |selectedItems|, selectedItems);
      ghost var tmpl := Templates();
      poll.Run(inventory, 0, d.shuffle, d.amounts, custom, tmpl);
      ghost var init := PollState(old(inventory[..]), Shuffled(EmptySlotsUpTo(old(inventory[..]), inventory.Length), d.shuffle), 0, tmpl);
      ghost var fin := PollFrom(poll.items, 0, init, |poll.items|, d.amounts, custom);
      forall x | x in items
        ensures x.templateItem == fin.tmpl[x]
      {
        if x !in poll.items {
          assert x.templateItem == old(x.templateItem);
        }
      }
    }

    /** The picking loop of `fillChest` for one group. */
    method SelectItems(w: WeightedRandom<ContainerItem>, itemsAmount: int, d: GroupDraws, custom: map<string, ItemStack>)
      returns (selectedItems: seq<ContainerItem>, threw: bool)
      requires forall j :: 0 <= j < |w.entries| ==> w.entries[j].item in items
      modifies items
      ensures forall x :: x in selectedItems ==> x in items
      ensures var sel := SelectFrom(w.State(), itemsAmount, d, custom, 0, Selection([], old(Templates()), false));
        selectedItems == sel.items && threw == sel.threw && Templates() == sel.tmpl
    {
      selectedItems, threw := [], false;
      ghost var final := SelectFrom(w.State(), itemsAmount, d, custom, 0, Selection([], Templates(), false));
      var i: nat := 0;
      while i < itemsAmount && !threw
        invariant forall j :: 0 <= j < |w.entries| ==> w.entries[j].item in items
        invariant forall x :: x in selectedItems ==> x in items
        invariant SelectFrom(w.State(), itemsAmount, d, custom, i, Selection(selectedItems, Templates(), threw)) == final
        decreases itemsAmount - i
      {
        selectedItems, threw := PickOne(w, d, custom, i, selectedItems);
        i := i + 1;
      }
    }

    /** One pick of the picking loop of `fillChest`. */
    method PickOne(w: WeightedRandom<ContainerItem>, d: GroupDraws, custom: map<string, ItemStack>, i: nat,
                   selectedItems: seq<ContainerItem>) returns (selected: seq<ContainerItem>, threw: bool)
      requires forall x :: x in selectedItems ==> x in items
      requires forall j :: 0 <= j < |w.entries| ==> w.entries[j].item in items
      modifies items
      ensures forall x :: x in selected ==> x in items
      ensures SelectStep(w.State(), d, custom, i, Selection(selectedItems, old(Templates()), false)) == Selection(selected, Templates(), threw)
    {
      selected, threw := selectedItems, false;
      var item := w.GetRandom(d.picks(i));
      if item.Some? {
        ChooseYieldsAddedItem(w.State(), d.picks(i));
        var x := item.value;
        ghost var before := Templates();
        selected := selected + [x];
        var built := x.BuildItem(d.debugAmounts(i), custom);
        assert Templates() == before[x := Resolved(before[x], custom)];
        threw := built.None?;
      }
    }
  }
}
