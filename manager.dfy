/**
 * The plugin manager (app/plugin.go) and configuration-driven discovery
 * (app/conf.go): it owns the active plugins, orders them by weight, loads
 * them fail-fast and unloads them best-effort.
 *
 * A plugin's Load and Unload are opaque: each call is recorded as an event
 * of the returned trace, and whether it errors is decided by an oracle, the
 * set of plugin names whose Load (or Unload) returns an error.
 */
module Manager {
  import opened Wrappers
  import opened Plugins
  import Discovery

  /** What was asked of a plugin: Load with its configuration subtree, or Unload. */
  datatype Op = Load(config: Option<ConfigValue>) | Unload

  /** One call into a plugin, identified by the plugin's Name(). */
  datatype Event = Event(plugin: string, op: Op)

  /** How a load sequence ended: every Load succeeded, or the one at `index` panicked. */
  datatype LoadOutcome = AllLoaded | Panicked(index: nat, plugin: string)

  // ---------------------------------------------------------------- ordering

  /** ByWeight's order: weights never increase along the sequence (ties in any order). */
  ghost predicate SortedByWeight(s: seq<Plugin>)
  {
    forall i, j :: 0 <= i < j < |s| ==> s[i].weight >= s[j].weight
  }

  /**
   * sort.Sort(ByWeight(s)): a permutation of `s` with non-increasing weights.
   * sort.Sort is not stable, so the contract fixes nothing about the order of
   * plugins of equal weight.
   */
  method SortByWeight(s: seq<Plugin>) returns (r: seq<Plugin>)
    ensures SortedByWeight(r)
    ensures multiset(r) == multiset(s)
  {
    r := [];
    var i := 0;
    while i < |s|
      invariant 0 <= i <= |s|
      invariant SortedByWeight(r)
      invariant multiset(r) == multiset(s[..i])
    {
      r := InsertByWeight(r, s[i]);
      assert s[..i + 1] == s[..i] + [s[i]];
      i := i + 1;
    }
    assert s[..|s|] == s;
  }

  /** Puts `x` into the sorted `r` after every plugin at least as heavy. */
  method InsertByWeight(r: seq<Plugin>, x: Plugin) returns (r': seq<Plugin>)
    requires SortedByWeight(r)
    ensures SortedByWeight(r')
    ensures multiset(r') == multiset(r) + multiset{x}
  {
    var j := 0;
    while j < |r| && r[j].weight >= x.weight
      invariant 0 <= j <= |r|
      invariant forall k :: 0 <= k < j ==> r[k].weight >= x.weight
    {
      j := j + 1;
    }
    assert forall k :: j <= k < |r| ==> r[k].weight < x.weight by {
      forall k | j <= k < |r| ensures r[k].weight < x.weight {
        assert j == k || r[j].weight >= r[k].weight;
      }
    }
    InsertKeepsSorted(r, j, x);
    assert r == r[..j] + r[j..];
    r' := r[..j] + [x] + r[j..];
  }

  /** Placing `x` between the heavier prefix and the lighter suffix keeps the order. */
  lemma InsertKeepsSorted(r: seq<Plugin>, j: nat, x: Plugin)
    requires SortedByWeight(r) && j <= |r|
    requires forall k :: 0 <= k < j ==> r[k].weight >= x.weight
    requires forall k :: j <= k < |r| ==> r[k].weight < x.weight
    ensures SortedByWeight(r[..j] + [x] + r[j..])
  {
    var r' := r[..j] + [x] + r[j..];
    assert forall k :: 0 <= k < |r'| ==> r'[k] == if k < j then r[k] else if k == j then x else r[k - 1];
  }

  // ----------------------------------------------------------------- traces

  /** One event per plugin of `ps`, in order, the operation chosen by `op`. */
  function Calls(ps: seq<Plugin>, op: Plugin -> Op): seq<Event>
  {
    seq(|ps|, i requires 0 <= i < |ps| => Event(ps[i].name, op(ps[i])))
  }

  /** b[name] in Go: the subtree stored under the plugin's name, or nil. */
  function ConfigFor(b: map<string, ConfigValue>, name: string): Option<ConfigValue>
  {
    if name in b then Some(b[name]) else None
  }

  /** Load called on each plugin of `ps` in order, with its own configuration subtree. */
  function LoadCalls(ps: seq<Plugin>, b: map<string, ConfigValue>): seq<Event>
  {
    Calls(ps, (p: Plugin) => Load(ConfigFor(b, p.name)))
  }

  /** Unload called on each plugin of `ps` in order. */
  function UnloadCalls(ps: seq<Plugin>): seq<Event>
  {
    Calls(ps, (p: Plugin) => Unload)
  }

  /** The names, in order, of the plugins of `ps` whose call errors (and is logged). */
  function Failing(ps: seq<Plugin>, fails: set<string>): seq<string>
  {
    if ps == [] then []
    else
      var last := ps[|ps| - 1];
      Failing(ps[..|ps| - 1], fails) + (if last.name in fails then [last.name] else [])
  }

  /** How many events of `trace` are calls into the plugin named `name`. */
  function Occurrences(trace: seq<Event>, name: string): nat
  {
    if trace == [] then 0
    else Occurrences(trace[..|trace| - 1], name) + (if trace[|trace| - 1].plugin == name then 1 else 0)
  }

  /** No two plugins of `ps` share a name. */
  ghost predicate DistinctNames(ps: seq<Plugin>)
  {
    forall i, j :: 0 <= i < j < |ps| ==> ps[i].name != ps[j].name
  }

  /**
   * The fail-fast contract of a load sequence over `ps`: either no Load
   * errors and every plugin was loaded, in order; or the Load at `index`
   * is the first to error, the plugins before it were loaded, it was
   * attempted, and nothing after it was.
   */
  ghost predicate FailFast(ps: seq<Plugin>, b: map<string, ConfigValue>, fails: set<string>,
                           trace: seq<Event>, outcome: LoadOutcome)
  {
    match outcome
    case AllLoaded =>
      (forall i :: 0 <= i < |ps| ==> ps[i].name !in fails) &&
      trace == LoadCalls(ps, b)
    case Panicked(k, name) =>
      k < |ps| && name == ps[k].name && name in fails &&
      (forall i :: 0 <= i < k ==> ps[i].name !in fails) &&
      trace == LoadCalls(ps[..k + 1], b)
  }

  /**
   * The loop shared by LoadPlugins and LoadSpecificPlugins: Load each plugin
   * in order and stop at the first error, which the source turns into a panic.
   */
  method LoadInOrder(ps: seq<Plugin>, b: map<string, ConfigValue>, fails: set<string>)
    returns (trace: seq<Event>, outcome: LoadOutcome)
    ensures FailFast(ps, b, fails, trace, outcome)
  {
    trace := [];
    var i := 0;
    while i < |ps|
      invariant 0 <= i <= |ps|
      invariant forall k :: 0 <= k < i ==> ps[k].name !in fails
      invariant trace == LoadCalls(ps[..i], b)
    {
      trace := trace + [Event(ps[i].name, Load(ConfigFor(b, ps[i].name)))];
      assert trace == LoadCalls(ps[..i + 1], b);
      if ps[i].name in fails {
        outcome := Panicked(i, ps[i].name);
        return;
      }
      i := i + 1;
    }
    assert ps[..i] == ps;
    outcome := AllLoaded;
  }

  /**
   * The loop shared by UnloadPlugins and UnloadSpecificPlugins: Unload each
   * plugin in order, log the ones that error, and carry on regardless.
   */
  method UnloadInOrder(ps: seq<Plugin>, fails: set<string>) returns (trace: seq<Event>, logged: seq<string>)
    ensures trace == UnloadCalls(ps)
    ensures logged == Failing(ps, fails)
  {
    trace, logged := [], [];
    var i := 0;
    while i < |ps|
      invariant 0 <= i <= |ps|
      invariant trace == UnloadCalls(ps[..i])
      invariant logged == Failing(ps[..i], fails)
    {
      trace := trace + [Event(ps[i].name, Unload)];
      if ps[i].name in fails {
        logged := logged + [ps[i].name];
      }
      assert ps[..i + 1][..i] == ps[..i];
      i := i + 1;
    }
    assert ps[..i] == ps;
  }

  /** The plugins stored under `names`, in that order (m[name] in Go). */
  function Lookup(m: map<string, Plugin>, names: seq<string>): seq<Plugin>
    requires forall i :: 0 <= i < |names| ==> names[i] in m
  {
    seq(|names|, i requires 0 <= i < |names| => m[names[i]])
  }

  /** `m` with each plugin of `ps` stored under its Name(), a later one overwriting an earlier one. */
  function Index(m: map<string, Plugin>, ps: seq<Plugin>): map<string, Plugin>
  {
    if ps == [] then m
    else
      var last := ps[|ps| - 1];
      Index(m, ps[..|ps| - 1])[last.name := last]
  }

  // ------------------------------------------------------------ the manager

  /** LynxPluginManager: the active plugins as a list and as a name -> plugin map. */
  class PluginManager {
    var plugMap: map<string, Plugin>
    var plugins: seq<Plugin>
    var factory: Factory

    /**
     * Every map entry is stored under its plugin's name and is one of the
     * listed plugins, and every listed plugin's name is a key of the map.
     */
    ghost predicate Valid()
      reads this
    {
      Consistent(plugins, plugMap)
    }

    /**
     * NewLynxPluginManager: the initial plugins are kept only when more than
     * one is supplied; a single one is dropped, as the source is written.
     */
    constructor (p: seq<Plugin>, f: Factory)
      ensures factory == f
      ensures |p| <= 1 ==> plugins == [] && plugMap == map[]
      ensures |p| > 1 ==> plugins == p && plugMap == Index(map[], p)
      ensures Valid()
    {
      factory := f;
      plugins := [];
      plugMap := map[];
      new;
      if |p| > 1 {
        var pm := map[];
        var i := 0;
        while i < |p|
          invariant 0 <= i <= |p|
          invariant pm == Index(map[], p[..i])
        {
          pm := pm[p[i].name := p[i]];
          assert p[..i + 1][..i] == p[..i];
          i := i + 1;
        }
        assert p[..i] == p;
        IndexConsistent(p);
        plugins, plugMap := p, pm;
      }
    }

    /**
     * LoadPlugins: sorts the list itself by weight, then loads every plugin
     * in that order, fail-fast. The sorted order is kept, so a later
     * UnloadPlugins walks it too.
     */
    method LoadPlugins(b: map<string, ConfigValue>, loadFails: set<string>)
      returns (trace: seq<Event>, outcome: LoadOutcome)
      requires Valid()
      modifies this`plugins
      ensures Valid()
      ensures multiset(plugins) == multiset(old(plugins)) && SortedByWeight(plugins)
      ensures FailFast(plugins, b, loadFails, trace, outcome)
    {
      ghost var before := plugins;
      plugins := SortByWeight(plugins);
      forall n | n in plugMap ensures plugMap[n] in plugins {
        assert plugMap[n] in multiset(before);
      }
      forall i | 0 <= i < |plugins| ensures plugins[i].name in plugMap {
        assert plugins[i] in multiset(before);
      }
      trace, outcome := LoadInOrder(plugins, b, loadFails);
    }

    /** UnloadPlugins: Unload every listed plugin once, in the list's current order, best-effort. */
    method UnloadPlugins(unloadFails: set<string>) returns (trace: seq<Event>, logged: seq<string>)
      ensures trace == UnloadCalls(plugins)
      ensures logged == Failing(plugins, unloadFails)
    {
      trace, logged := UnloadInOrder(plugins, unloadFails);
    }

    /**
     * LoadSpecificPlugins: loads the plugins stored under `names`, by
     * non-increasing weight, fail-fast; the manager's state is untouched.
     * `order` is the sorted list the loop walks.
     */
    method LoadSpecificPlugins(names: seq<string>, b: map<string, ConfigValue>, loadFails: set<string>)
      returns (trace: seq<Event>, outcome: LoadOutcome, ghost order: seq<Plugin>)
      requires forall i :: 0 <= i < |names| ==> names[i] in plugMap
      ensures multiset(order) == multiset(Lookup(plugMap, names)) && SortedByWeight(order)
      ensures FailFast(order, b, loadFails, trace, outcome)
      ensures |trace| == (if outcome.AllLoaded? then |names| else outcome.index + 1) && |trace| <= |names|
      ensures forall i :: 0 <= i < |trace| ==> trace[i].op == Load(ConfigFor(b, trace[i].plugin))
      ensures Valid() ==> forall i :: 0 <= i < |trace| ==> trace[i].plugin in plugMap
      ensures Valid() ==> forall i, j :: 0 <= i < j < |trace| ==>
                plugMap[trace[i].plugin].weight >= plugMap[trace[j].plugin].weight
    {
      var plugs: seq<Plugin> := [];
      var i := 0;
      while i < |names|
        invariant 0 <= i <= |names|
        invariant plugs == Lookup(plugMap, names[..i])
      {
        plugs := plugs + [plugMap[names[i]]];
        i := i + 1;
      }
      assert names[..i] == names;
      plugs := SortByWeight(plugs);
      order := plugs;
      trace, outcome := LoadInOrder(plugs, b, loadFails);
      FailFastShape(order, b, loadFails, trace, outcome);
      if Valid() {
        forall i | 0 <= i < |order| ensures order[i].name in plugMap && plugMap[order[i].name] == order[i] {
          assert order[i] in multiset(Lookup(plugMap, names));
          var k :| 0 <= k < |names| && Lookup(plugMap, names)[k] == order[i];
        }
      }
    }

    /**
     * UnloadSpecificPlugins: Unload the plugin stored under each name, once
     * per name and in the order given, best-effort.
     */
    method UnloadSpecificPlugins(names: seq<string>, unloadFails: set<string>)
      returns (trace: seq<Event>, logged: seq<string>)
      requires Valid()
      requires forall i :: 0 <= i < |names| ==> names[i] in plugMap
      ensures |trace| == |names|
      ensures forall i :: 0 <= i < |names| ==> trace[i] == Event(names[i], Unload)
      ensures logged == Failing(Lookup(plugMap, names), unloadFails)
    {
      trace, logged := UnloadInOrder(Lookup(plugMap, names), unloadFails);
    }

    /**
     * PreparePlug: visits the registration table's keys in the order `keys`
     * gives; skips a key whose configuration section is absent (not in
     * `present`) or whose name list is empty; otherwise instantiates each
     * listed name that is registered in the factory and not active yet,
     * appends the plugin, stores it under its Name() and returns the names
     * so instantiated, in order. The factory's "invalid plugin name" error
     * cannot occur, since Exists is checked first, so the source's panic
     * never happens.
     */
    method PreparePlug(present: set<string>, keys: seq<string>) returns (plugNames: seq<string>)
      requires Valid()
      requires forall k :: k in keys <==> k in factory.table
      modifies this`plugins, this`plugMap
      ensures Valid()
      ensures |plugins| == |old(plugins)| + |plugNames| && plugins[..|old(plugins)|] == old(plugins)
      ensures forall i :: 0 <= i < |plugNames| ==>
                plugNames[i] in factory.creators && plugins[|old(plugins)| + i] == factory.creators[plugNames[i]]
      ensures plugMap == Index(old(plugMap), plugins[|old(plugins)|..])
      ensures forall n :: n in old(plugMap) ==> n in plugMap
      ensures forall n :: n in plugNames ==>
                n !in old(plugMap) && n in Discovery.Activated(present, factory.table)
      ensures WellNamed(factory.creators) ==> Discovery.NoDuplicates(plugNames)
      ensures WellNamed(factory.creators) ==> forall n :: n in plugNames <==>
                n in Discovery.Activated(present, factory.table) && n in factory.creators && n !in old(plugMap)
      ensures WellNamed(factory.creators) ==>
                |plugNames| == |Discovery.Activated(present, factory.table) * factory.creators.Keys - old(plugMap).Keys|
      ensures WellNamed(factory.creators) ==> forall n :: n in plugMap <==> n in old(plugMap) || n in plugNames
      ensures WellNamed(factory.creators) ==> forall n :: n in old(plugMap) ==> plugMap[n] == old(plugMap)[n]
      ensures WellNamed(factory.creators) ==> forall n :: n in plugNames ==> plugMap[n] == factory.creators[n]
    {
      ghost var base, baseMap := plugins, plugMap;
      assert plugins[|base|..] == [];
      var ps, pm;
      ps, pm, plugNames := VisitKeys(present, keys, plugins, plugMap, base, baseMap);
      plugins, plugMap := ps, pm;
      Discovery.VisitOrderIrrelevant(keys, present, factory.table);
      GrownConclusion(plugins, plugMap, factory.creators, base, baseMap,
                      Discovery.Activated(present, factory.table), plugNames);
      if WellNamed(factory.creators) {
        GrownCount(plugins, plugMap, factory.creators, base, baseMap,
                   Discovery.Activated(present, factory.table), plugNames);
      }
    }

    /**
     * The outer loop of PreparePlug, on the list `ps` and map `pm`: visit
     * the table's keys in the order `keys` gives, activating the names
     * listed under each present key.
     */
    method VisitKeys(present: set<string>, keys: seq<string>, ps: seq<Plugin>, pm: map<string, Plugin>,
                     ghost base: seq<Plugin>, ghost baseMap: map<string, Plugin>)
      returns (ps': seq<Plugin>, pm': map<string, Plugin>, plugNames: seq<string>)
      requires forall k :: k in keys ==> k in factory.table
      requires Grown(ps, pm, factory.creators, base, baseMap, {}, [])
      ensures Grown(ps', pm', factory.creators, base, baseMap,
                    Discovery.Listed(keys, present, factory.table), plugNames)
    {
      var table := factory.table;
      ps', pm', plugNames := ps, pm, [];
      ghost var seen: set<string> := {};
      var ki := 0;
      while ki < |keys|
        invariant 0 <= ki <= |keys|
        invariant seen == Discovery.Listed(keys[..ki], present, table)
        invariant Grown(ps', pm', factory.creators, base, baseMap, seen, plugNames)
      {
        var key := keys[ki];
        Discovery.ListedStep(keys, ki, present, table);
        if key in present {
          var names := table[key];
          if |names| != 0 {
            ps', pm', plugNames := ActivateNames(names, ps', pm', plugNames, base, baseMap, seen);
          } else {
            assert Discovery.Members(names) == {};
            assert seen + Discovery.Members(names) == seen;
          }
          seen := seen + Discovery.Members(names);
        }
        ki := ki + 1;
      }
      assert keys[..ki] == keys;
    }

    /**
     * The inner loop of PreparePlug over the names one present key lists,
     * on the list `ps` and map `pm`: instantiate each name that is
     * registered and not active yet.
     */
    method ActivateNames(names: seq<string>, ps: seq<Plugin>, pm: map<string, Plugin>, plugNames: seq<string>,
                         ghost base: seq<Plugin>, ghost baseMap: map<string, Plugin>, ghost seen: set<string>)
      returns (ps': seq<Plugin>, pm': map<string, Plugin>, plugNames': seq<string>)
      requires Grown(ps, pm, factory.creators, base, baseMap, seen, plugNames)
      ensures Grown(ps', pm', factory.creators, base, baseMap, seen + Discovery.Members(names), plugNames')
    {
      ghost var creators := factory.creators;
      ghost var seenSoFar := seen;
      ps', pm', plugNames' := ps, pm, plugNames;
      var j := 0;
      assert names[..0] == [];
      while j < |names|
        invariant 0 <= j <= |names|
        invariant seenSoFar == seen + Discovery.Members(names[..j])
        invariant Grown(ps', pm', creators, base, baseMap, seenSoFar, plugNames')
      {
        var name := names[j];
        Discovery.MembersStep(names, j);
        GrownStep(ps', pm', creators, base, baseMap, seenSoFar, plugNames', name);
        if name !in pm' && factory.Exists(name) {
          var created := factory.Create(name);
          assert created.Ok?;  // Exists was checked, so Create cannot fail here
          var p := created.value;
          ps' := ps' + [p];
          pm' := pm'[p.name := p];
          plugNames' := plugNames' + [name];
        }
        seenSoFar := seenSoFar + {name};
        j := j + 1;
      }
      assert names[..j] == names;
    }

    /** GetPlugin: the plugin stored under `name`, or nothing (nil in Go). */
    function GetPlugin(name: string): (r: Option<Plugin>)
      reads this
      ensures r.Some? <==> name in plugMap
      ensures r.Some? ==> r.value == plugMap[name]
      ensures Valid() && r.Some? ==> r.value.name == name
    {
      if name in plugMap then Some(plugMap[name]) else None
    }
  }

  /**
   * The manager's invariant: every map entry is stored under its plugin's
   * name and is one of the listed plugins, and every listed plugin's name
   * is a key of the map.
   */
  ghost predicate Consistent(plugins: seq<Plugin>, plugMap: map<string, Plugin>)
  {
    (forall n :: n in plugMap ==> plugMap[n].name == n && plugMap[n] in plugins) &&
    (forall i :: 0 <= i < |plugins| ==> plugins[i].name in plugMap)
  }

  /**
   * What discovery has done so far, relative to the list `base` and map
   * `baseMap` it started from, having visited the names in `seen`: it
   * appended one freshly created plugin per returned name, stored each under
   * its Name(), and returned only names that were registered, not active
   * before, and seen. When every constructor builds a plugin named as
   * registered, it also returned each such name once and kept every earlier
   * entry.
   */
  ghost predicate Grown(plugins: seq<Plugin>, plugMap: map<string, Plugin>, creators: map<string, Plugin>,
                        base: seq<Plugin>, baseMap: map<string, Plugin>, seen: set<string>, plugNames: seq<string>)
  {
    Consistent(plugins, plugMap) &&
    |plugins| == |base| + |plugNames| && plugins[..|base|] == base &&
    (forall i :: 0 <= i < |plugNames| ==>
       plugNames[i] in creators && plugins[|base| + i] == creators[plugNames[i]]) &&
    plugMap == Index(baseMap, plugins[|base|..]) &&
    (forall n :: n in baseMap ==> n in plugMap) &&
    (forall n :: n in plugNames ==> n !in baseMap && n in seen) &&
    (WellNamed(creators) ==> GrownWellNamed(plugMap, creators, baseMap, seen, plugNames))
  }

  /** The part of Grown that holds when constructors build plugins named as registered. */
  ghost predicate GrownWellNamed(plugMap: map<string, Plugin>, creators: map<string, Plugin>,
                                 baseMap: map<string, Plugin>, seen: set<string>, plugNames: seq<string>)
  {
    Discovery.NoDuplicates(plugNames) &&
    (forall n :: n in plugNames ==> n in plugMap) &&
    (forall n :: n in plugMap ==> n in baseMap || n in plugNames) &&
    (forall n :: n in baseMap ==> n in plugMap && plugMap[n] == baseMap[n]) &&
    (forall n :: n in seen && n in creators && n !in baseMap ==> n in plugNames)
  }

  /** Instantiating a registered, inactive name keeps Grown, with the name now seen and returned. */
  lemma GrownAdds(plugins: seq<Plugin>, plugMap: map<string, Plugin>, creators: map<string, Plugin>,
                  base: seq<Plugin>, baseMap: map<string, Plugin>, seen: set<string>, plugNames: seq<string>,
                  name: string)
    requires Grown(plugins, plugMap, creators, base, baseMap, seen, plugNames)
    requires name !in plugMap && name in creators
    ensures var p := creators[name];
            Grown(plugins + [p], plugMap[p.name := p], creators, base, baseMap, seen + {name}, plugNames + [name])
  {
    var p := creators[name];
    ConsistentAppend(plugins, plugMap, p);
    AppendedFromFactory(plugins, creators, base, plugNames, name);
    IndexAppendTail(baseMap, plugins, |base|, p);
    if WellNamed(creators) {
      WellNamedAdds(plugMap, creators, baseMap, seen, plugNames, name);
    }
  }

  /** Visiting one more name keeps Grown: the name is instantiated when registered and inactive, else skipped. */
  lemma GrownStep(plugins: seq<Plugin>, plugMap: map<string, Plugin>, creators: map<string, Plugin>,
                  base: seq<Plugin>, baseMap: map<string, Plugin>, seen: set<string>, plugNames: seq<string>,
                  name: string)
    requires Grown(plugins, plugMap, creators, base, baseMap, seen, plugNames)
    ensures name !in plugMap && name in creators ==>
              var p := creators[name];
              Grown(plugins + [p], plugMap[p.name := p], creators, base, baseMap, seen + {name}, plugNames + [name])
    ensures name in plugMap || name !in creators ==>
              Grown(plugins, plugMap, creators, base, baseMap, seen + {name}, plugNames)
  {
    if name !in plugMap && name in creators {
      GrownAdds(plugins, plugMap, creators, base, baseMap, seen, plugNames, name);
    } else {
      GrownSkips(plugins, plugMap, creators, base, baseMap, seen, plugNames, name);
    }
  }

  /** Indexing a list from scratch yields a map consistent with it. */
  lemma IndexConsistent(ps: seq<Plugin>)
    ensures Consistent(ps, Index(map[], ps))
  {
    forall n | n in Index(map[], ps) ensures Index(map[], ps)[n].name == n && Index(map[], ps)[n] in ps {
      IndexStoresByName(map[], ps, n);
    }
    forall i | 0 <= i < |ps| ensures ps[i].name in Index(map[], ps) {
      IndexKeys(map[], ps, ps[i].name);
    }
  }

  /** Appending a plugin to the indexed tail stores it last, over any earlier entry. */
  lemma IndexAppendTail(m: map<string, Plugin>, ps: seq<Plugin>, from: nat, p: Plugin)
    requires from <= |ps|
    ensures Index(m, (ps + [p])[from..]) == Index(m, ps[from..])[p.name := p]
  {
    var tail := (ps + [p])[from..];
    assert tail == ps[from..] + [p];
    assert tail[..|tail| - 1] == ps[from..];
  }

  /** Appending a plugin and storing it under its name keeps the manager's invariant. */
  lemma ConsistentAppend(plugins: seq<Plugin>, plugMap: map<string, Plugin>, p: Plugin)
    requires Consistent(plugins, plugMap)
    ensures Consistent(plugins + [p], plugMap[p.name := p])
  {
    var plugins' := plugins + [p];
    forall i | 0 <= i < |plugins'| ensures plugins'[i].name in plugMap[p.name := p] {
      if i < |plugins| {
        assert plugins'[i] == plugins[i];
      }
    }
  }

  /** Each returned name still lines up with the plugin created for it. */
  lemma AppendedFromFactory(plugins: seq<Plugin>, creators: map<string, Plugin>, base: seq<Plugin>,
                            plugNames: seq<string>, name: string)
    requires |plugins| == |base| + |plugNames| && plugins[..|base|] == base
    requires forall i :: 0 <= i < |plugNames| ==>
               plugNames[i] in creators && plugins[|base| + i] == creators[plugNames[i]]
    requires name in creators
    ensures var plugins', plugNames' := plugins + [creators[name]], plugNames + [name];
            plugins'[..|base|] == base &&
            forall i :: 0 <= i < |plugNames'| ==>
              plugNames'[i] in creators && plugins'[|base| + i] == creators[plugNames'[i]]
  {
    var plugins', plugNames' := plugins + [creators[name]], plugNames + [name];
    assert plugins'[..|base|] == plugins[..|base|];
    forall i | 0 <= i < |plugNames'|
      ensures plugNames'[i] in creators && plugins'[|base| + i] == creators[plugNames'[i]]
    {
      if i < |plugNames| {
        assert plugins'[|base| + i] == plugins[|base| + i];
      }
    }
  }

  /** With constructors named as registered, instantiating a new name keeps GrownWellNamed. */
  lemma WellNamedAdds(plugMap: map<string, Plugin>, creators: map<string, Plugin>,
                      baseMap: map<string, Plugin>, seen: set<string>, plugNames: seq<string>, name: string)
    requires WellNamed(creators)
    requires GrownWellNamed(plugMap, creators, baseMap, seen, plugNames)
    requires name !in plugMap && name in creators
    requires forall n :: n in baseMap ==> n in plugMap
    ensures GrownWellNamed(plugMap[name := creators[name]], creators, baseMap, seen + {name}, plugNames + [name])
  {
    var plugNames' := plugNames + [name];
    forall i, j | 0 <= i < j < |plugNames'| ensures plugNames'[i] != plugNames'[j] {
      if j < |plugNames| {
        assert plugNames'[i] == plugNames[i] && plugNames'[j] == plugNames[j];
      } else {
        assert plugNames'[i] == plugNames[i] && plugNames[i] in plugNames;
      }
    }
  }

  /** What Grown says once every key has been visited, spelled out as PreparePlug promises it. */
  lemma GrownConclusion(plugins: seq<Plugin>, plugMap: map<string, Plugin>, creators: map<string, Plugin>,
                        base: seq<Plugin>, baseMap: map<string, Plugin>, seen: set<string>, plugNames: seq<string>)
    requires Grown(plugins, plugMap, creators, base, baseMap, seen, plugNames)
    ensures Consistent(plugins, plugMap)
    ensures |plugins| == |base| + |plugNames| && plugins[..|base|] == base
    ensures forall i :: 0 <= i < |plugNames| ==>
              plugNames[i] in creators && plugins[|base| + i] == creators[plugNames[i]]
    ensures plugMap == Index(baseMap, plugins[|base|..])
    ensures forall n :: n in baseMap ==> n in plugMap
    ensures forall n :: n in plugNames ==> n !in baseMap && n in seen
    ensures WellNamed(creators) ==> Discovery.NoDuplicates(plugNames)
    ensures WellNamed(creators) ==> forall n :: n in plugNames <==> n in seen && n in creators && n !in baseMap
    ensures WellNamed(creators) ==> forall n :: n in plugMap <==> n in baseMap || n in plugNames
    ensures WellNamed(creators) ==> forall n :: n in baseMap ==> plugMap[n] == baseMap[n]
    ensures WellNamed(creators) ==> forall n :: n in plugNames ==> n in plugMap && plugMap[n] == creators[n]
  {
    if WellNamed(creators) {
      forall n | n in plugNames ensures plugMap[n] == creators[n] {
        var i :| 0 <= i < |plugNames| && plugNames[i] == n;
        var added := plugins[|base|..];
        assert added[i] == creators[n];
        IndexLastWriter(baseMap, added, i);
        var j :| i <= j < |added| && plugMap[n] == added[j] && added[j].name == n;
        assert added[j] == creators[plugNames[j]];
      }
    }
  }

  /** With constructors named as registered, discovery returns as many names as it could activate. */
  lemma GrownCount(plugins: seq<Plugin>, plugMap: map<string, Plugin>, creators: map<string, Plugin>,
                   base: seq<Plugin>, baseMap: map<string, Plugin>, seen: set<string>, plugNames: seq<string>)
    requires Grown(plugins, plugMap, creators, base, baseMap, seen, plugNames)
    requires WellNamed(creators)
    ensures |plugNames| == |seen * creators.Keys - baseMap.Keys|
  {
    assert GrownWellNamed(plugMap, creators, baseMap, seen, plugNames);
    assert Discovery.Members(plugNames) == seen * creators.Keys - baseMap.Keys;
    Discovery.DistinctCount(plugNames);
  }

  /** Passing over an active or unregistered name keeps Grown, with the name now seen. */
  lemma GrownSkips(plugins: seq<Plugin>, plugMap: map<string, Plugin>, creators: map<string, Plugin>,
                   base: seq<Plugin>, baseMap: map<string, Plugin>, seen: set<string>, plugNames: seq<string>,
                   name: string)
    requires Grown(plugins, plugMap, creators, base, baseMap, seen, plugNames)
    requires name in plugMap || name !in creators
    ensures Grown(plugins, plugMap, creators, base, baseMap, seen + {name}, plugNames)
  {
  }

  // ----------------------------------------------------------------- lemmas

  /** After Index, a name is a key exactly when it was one before or some plugin of `ps` carries it. */
  lemma {:induction false} IndexKeys(m: map<string, Plugin>, ps: seq<Plugin>, n: string)
    ensures n in Index(m, ps) <==> n in m || exists i :: 0 <= i < |ps| && ps[i].name == n
  {
    if ps != [] {
      var front := ps[..|ps| - 1];
      IndexKeys(m, front, n);
      if exists i :: 0 <= i < |ps| && ps[i].name == n {
        var i :| 0 <= i < |ps| && ps[i].name == n;
        if i < |ps| - 1 {
          assert front[i] == ps[i];
        }
      }
    }
  }

  /** Last writer wins: a name some plugin of `ps` carries maps to the last such plugin. */
  lemma {:induction false} IndexLastWriter(m: map<string, Plugin>, ps: seq<Plugin>, i: nat)
    requires i < |ps|
    ensures var n := ps[i].name;
            n in Index(m, ps) &&
            exists j :: i <= j < |ps| && Index(m, ps)[n] == ps[j] && ps[j].name == n &&
                        forall l :: j < l < |ps| ==> ps[l].name != n
  {
    var n := ps[i].name;
    var last := |ps| - 1;
    if ps[last].name == n {
      assert Index(m, ps)[n] == ps[last];
    } else {
      var front := ps[..last];
      IndexLastWriter(m, front, i);
      var j :| i <= j < |front| && Index(m, front)[n] == front[j] && front[j].name == n &&
               forall l :: j < l < |front| ==> front[l].name != n;
      assert Index(m, ps)[n] == ps[j];
      assert forall l :: j < l < |ps| ==> ps[l].name != n by {
        forall l | j < l < |ps| ensures ps[l].name != n {
          if l < last {
            assert front[l] == ps[l];
          }
        }
      }
    }
  }

  /** Index stores every plugin under its own name, and only plugins of `m` or `ps`. */
  lemma {:induction false} IndexStoresByName(m: map<string, Plugin>, ps: seq<Plugin>, n: string)
    requires n in Index(m, ps)
    ensures (n in m && Index(m, ps)[n] == m[n]) || Index(m, ps)[n] in ps
    ensures (n in m ==> m[n].name == n) ==> Index(m, ps)[n].name == n
  {
    if ps != [] {
      var front := ps[..|ps| - 1];
      if ps[|ps| - 1].name != n {
        IndexStoresByName(m, front, n);
      }
    }
  }

  /** Load calls of distinct-named plugins name each of them once and nothing else. */
  lemma {:induction false} CallsNameEachOnce(ps: seq<Plugin>, op: Plugin -> Op, n: string)
    requires DistinctNames(ps)
    ensures Occurrences(Calls(ps, op), n) == if exists i :: 0 <= i < |ps| && ps[i].name == n then 1 else 0
  {
    if ps != [] {
      var front := ps[..|ps| - 1];
      assert Calls(ps, op)[..|ps| - 1] == Calls(front, op);
      CallsNameEachOnce(front, op, n);
      if exists i :: 0 <= i < |ps| && ps[i].name == n {
        var i :| 0 <= i < |ps| && ps[i].name == n;
        if i < |ps| - 1 {
          assert front[i] == ps[i];
        }
      } else {
        assert forall i :: 0 <= i < |front| ==> front[i] == ps[i];
      }
    }
  }

  /**
   * Fail-fast, counted per plugin: when names are distinct, a load sequence
   * calls Load exactly once on each plugin up to and including the one that
   * failed (all of them when none failed) and never on a later one.
   */
  lemma FailFastLoadCounts(ps: seq<Plugin>, b: map<string, ConfigValue>, fails: set<string>,
                         trace: seq<Event>, outcome: LoadOutcome)
    requires DistinctNames(ps)
    requires FailFast(ps, b, fails, trace, outcome)
    ensures forall i :: 0 <= i < |ps| ==>
              Occurrences(trace, ps[i].name) == if outcome.AllLoaded? || i <= outcome.index then 1 else 0
  {
    var done := if outcome.AllLoaded? then ps else ps[..outcome.index + 1];
    assert trace == LoadCalls(done, b);
    forall i | 0 <= i < |ps|
      ensures Occurrences(trace, ps[i].name) == if outcome.AllLoaded? || i <= outcome.index then 1 else 0
    {
      CallsNameEachOnce(done, (p: Plugin) => Load(ConfigFor(b, p.name)), ps[i].name);
      if outcome.AllLoaded? || i <= outcome.index {
        assert done[i] == ps[i];
      }
    }
  }

  /** The shape of a fail-fast trace: the Load calls on a prefix of `ps`, one per plugin. */
  lemma FailFastShape(ps: seq<Plugin>, b: map<string, ConfigValue>, fails: set<string>,
                      trace: seq<Event>, outcome: LoadOutcome)
    requires FailFast(ps, b, fails, trace, outcome)
    ensures |trace| == (if outcome.AllLoaded? then |ps| else outcome.index + 1) && |trace| <= |ps|
    ensures forall i :: 0 <= i < |trace| ==> trace[i] == Event(ps[i].name, Load(ConfigFor(b, ps[i].name)))
  {
  }

  /** A load sequence has one outcome: the trace and the failing index are determined. */
  lemma FailFastDeterministic(ps: seq<Plugin>, b: map<string, ConfigValue>, fails: set<string>,
                              t1: seq<Event>, o1: LoadOutcome, t2: seq<Event>, o2: LoadOutcome)
    requires FailFast(ps, b, fails, t1, o1) && FailFast(ps, b, fails, t2, o2)
    ensures t1 == t2 && o1 == o2
  {
  }

  /**
   * Unloading is best-effort: whatever the outcomes, the trace holds one
   * Unload per plugin, so each distinct-named plugin is unloaded exactly once.
   */
  lemma UnloadedExactlyOnce(ps: seq<Plugin>)
    requires DistinctNames(ps)
    ensures |UnloadCalls(ps)| == |ps|
    ensures forall i :: 0 <= i < |ps| ==> Occurrences(UnloadCalls(ps), ps[i].name) == 1
  {
    forall i | 0 <= i < |ps| ensures Occurrences(UnloadCalls(ps), ps[i].name) == 1 {
      CallsNameEachOnce(ps, (p: Plugin) => Unload, ps[i].name);
    }
  }

  /** The errors logged during unloading name exactly the plugins whose Unload errored. */
  lemma {:induction false} FailingNamesFailures(ps: seq<Plugin>, fails: set<string>, n: string)
    ensures n in Failing(ps, fails) <==> n in fails && exists i :: 0 <= i < |ps| && ps[i].name == n
  {
    if ps != [] {
      var front := ps[..|ps| - 1];
      FailingNamesFailures(front, fails, n);
      if exists i :: 0 <= i < |ps| && ps[i].name == n {
        var i :| 0 <= i < |ps| && ps[i].name == n;
        if i < |ps| - 1 {
          assert front[i] == ps[i];
        }
      }
    }
  }
}
