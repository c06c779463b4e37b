# Lynx plugin lifecycle engine in Dafny

This project models the plugin lifecycle engine of the Lynx microservice
framework (Go) and proves properties of the model. The engine has three parts:

- **Plugin factory** (`plugin/plugin.go`): a registry from a plugin name to a
  constructor, with `Register`, `Create` and `Exists`. It is modelled as the
  class `Plugins.Factory`. A constructor closure is represented by the plugin
  record `Plugin(name, weight)` that it builds.
- **Plugin manager** (`app/plugin.go`): `Manager.PluginManager` keeps the
  ordered `plugins` list and the `plugMap` name → plugin map. `LoadPlugins`
  sorts the list in place by descending weight and loads fail-fast.
  `LoadSpecificPlugins` sorts a copy and loads it the same way.
  `UnloadPlugins` and `UnloadSpecificPlugins` unload best-effort.
  `GetPlugin` is a lookup.
- **Configuration-driven discovery** (`app/conf.go`, `PreparePlug`): it walks
  the registration table (configuration key → plugin names). It skips keys
  whose configuration section is absent or whose name list is empty. It
  instantiates names that are registered but not yet active, and appends
  them to the manager.

What a plugin's `Load` and `Unload` do is opaque. Each call is recorded as an
`Event` in a returned trace. Whether a call errors is an input: the set of
plugin names whose `Load` (`loadFails`) or `Unload` (`unloadFails`) returns
an error. The source's `panic(err)` on a failed load becomes the outcome
`Panicked(index, plugin)`. The error logged for a failed unload becomes an
entry of the returned `logged` list.

The configuration is modelled in two parts. `present` is the set of keys
whose section holds a value (`value.Load() != nil`). `b` is a map from plugin
name to the opaque subtree passed to `Load`; a missing entry is passed as
`None` (Go's nil). Go ranges over the table in no fixed order, so
`PreparePlug` takes the visiting order as a parameter `keys`, which must list
exactly the table's keys. `Discovery.VisitOrderIrrelevant` shows that the
set of names discovery can reach does not depend on that order.

Three behaviours of the code are easy to misread; the model follows the code:

- `sort.Sort` is not a stable sort. The contract of `Manager.SortByWeight`
  says only "a permutation with non-increasing weights", so nothing is
  promised about the order of equal weights. The contract of
  `Scenarios.HeaviestLoadFirst` fixes only that B and C, of equal weight,
  take the first two places; `Scenarios.EqualWeightsEitherOrder` shows that
  both of their orders meet the sort's contract.
- `UnloadPlugins` walks the list in its current order. `LoadPlugins` has
  sorted that list in place, so after a load the unload follows weight
  order, not insertion order (`Scenarios.UnloadFollowsSortedOrder`).
- `NewLynxPluginManager` keeps the initial plugins only when more than one is
  given, so a single plugin is dropped (`Scenarios.SingleInitialPluginDropped`).

## Model

| member | source | states |
|---|---|---|
| `Plugins.Factory.constructor` | plugin/plugin.go:35-39 | A new factory has no constructors; `Exists` is false for every name |
| `Plugins.Factory.Register` | plugin/plugin.go:41-43 | Stores the constructor under the name, overwriting any earlier one with no error; afterwards `Exists` holds and `Create` returns that constructor's plugin; `Create` on every other name is unchanged |
| `Plugins.Factory.Exists` | plugin/plugin.go:53-56 | True exactly when a constructor is registered under the name |
| `Plugins.Factory.Create` | plugin/plugin.go:45-51 | Succeeds exactly when `Exists` holds, returning the registered constructor's plugin; otherwise fails with "invalid plugin name" |
| `Manager.SortByWeight` | app/plugin.go:83-87 | `sort.Sort(ByWeight(...))`: the result is a permutation of the input with non-increasing weights; tie order is left open |
| `Manager.LoadInOrder` | app/plugin.go:35-41 | Fail-fast load: either no `Load` errors and every plugin is loaded once, in order, with its own configuration; or the first failing plugin is the reported index, the plugins before it were loaded, it was attempted, and no later plugin was |
| `Manager.UnloadInOrder` | app/plugin.go:46-51 | Best-effort unload: one `Unload` per plugin in list order, whatever fails; the logged names are exactly the failing plugins, in order |
| `Manager.PluginManager.constructor` | app/plugin.go:15-30 | With 0 or 1 initial plugins the list and map are empty; with 2 or more the list is the input and the map stores each plugin under its name, later entries overwriting earlier ones; the manager invariant holds |
| `Manager.PluginManager.LoadPlugins` | app/plugin.go:32-42 | Reorders `plugins` in place into a permutation sorted by non-increasing weight, keeps the invariant and `plugMap`, then loads the sorted list fail-fast |
| `Manager.PluginManager.UnloadPlugins` | app/plugin.go:44-52 | Calls `Unload` once on each plugin of the current list, in list order, never stopping early; logs exactly the failures |
| `Manager.PluginManager.LoadSpecificPlugins` | app/plugin.go:54-68 | Loads the plugins stored under the given names, in a weight-sorted permutation of them, fail-fast: the trace holds one Load per attempted plugin with that plugin's own configuration, covers every name or ends at the panicking one, and visits active plugins in non-increasing weight; the manager's state is not modified |
| `Manager.FailFastShape` | app/plugin.go:35-41 | A fail-fast trace is the Load calls of a prefix of the plugin list, one per plugin, as long as the list or ending at the panic |
| `Manager.PluginManager.UnloadSpecificPlugins` | app/plugin.go:70-77 | Calls `Unload` once per given name, in the given order, on the plugin stored under it, best-effort; logs exactly the failures |
| `Manager.PluginManager.GetPlugin` | app/plugin.go:79-81 | Returns the plugin stored under the name, or none when the name is absent; under the invariant the returned plugin carries that name |
| `Manager.PluginManager.PreparePlug` | app/conf.go:8-36 | Discovery only appends: the old list is a prefix of the new one, with one created plugin per returned name. Each returned name was inactive before, is registered, and is listed under a present key. The map is the old map plus the new plugins under their names. When constructors are named as registered: no name is returned twice; exactly the reachable, registered, inactive names are returned, so their count is fixed; earlier entries are unchanged. The `Create` error branch cannot be reached |
| `Manager.PluginManager.VisitKeys` | app/conf.go:11-34 | The outer loop over the table's keys in the given order: skipping a key with an absent section or an empty list, it keeps the discovery invariant, with the names under every visited present key now visited |
| `Manager.PluginManager.ActivateNames` | app/conf.go:22-34 | The inner loop over one key's names: it keeps the discovery invariant, with that key's names now visited |
| `Manager.GrownStep` | app/conf.go:23-32 | One name of the inner loop keeps the discovery invariant: a registered, inactive name is created, appended, stored and returned; any other is skipped |
| `Manager.GrownAdds` | app/conf.go:23-31 | Instantiating a registered, inactive name keeps the discovery invariant: appended once, stored under its name, returned once |
| `Manager.GrownSkips` | app/conf.go:23 | Skipping an active or unregistered name keeps the discovery invariant |
| `Manager.GrownCount` | app/conf.go:29-35 | With constructors named as registered, the number of returned names equals the number of distinct reachable, registered, inactive names |
| `Manager.IndexKeys` | app/plugin.go:25-27 | After storing plugins by name, a name is a key exactly when it was one before or some stored plugin carries it |
| `Manager.IndexLastWriter` | app/plugin.go:25-27 | Last writer wins: a name maps to the last plugin in the sequence that carries it |
| `Manager.IndexConsistent` | app/plugin.go:24-28 | Storing a list of plugins in an empty map, each under its name, gives a map consistent with the list |
| `Manager.IndexAppendTail` | app/conf.go:29-30 | Appending one plugin to the list stores it under its name, over any earlier entry |
| `Manager.IndexStoresByName` | app/plugin.go:25-27 | Every stored entry comes from the old map or the stored plugins, and sits under its own plugin's name provided the old map's entries do |
| `Manager.CallsNameEachOnce` | app/plugin.go:35-36 | A call trace over plugins with distinct names mentions each of them exactly once and no other name |
| `Manager.FailFastLoadCounts` | app/plugin.go:35-41 | With distinct names: `Load` runs exactly once on each plugin up to and including the failing one (all of them if none fails) and never on a later one |
| `Manager.FailFastDeterministic` | app/plugin.go:35-41 | A load sequence has a single possible trace and outcome |
| `Manager.UnloadedExactlyOnce` | app/plugin.go:44-52 | Unloading a list with distinct names calls `Unload` exactly once per plugin |
| `Manager.FailingNamesFailures` | app/plugin.go:47-50 | A name is logged exactly when it is in the list and its `Unload` errors |
| `Discovery.ListedStep` | app/conf.go:11-20 | Visiting one more key adds its names when its section is present and it is in the table, and nothing otherwise |
| `Discovery.MembersStep` | app/conf.go:22 | Visiting one more name of a key's list adds exactly that name to the names visited |
| `Discovery.ListedByVisitedKey` | app/conf.go:11-20 | A name is reached exactly when some visited key with a present section lists it |
| `Discovery.VisitOrderIrrelevant` | app/conf.go:11 | Visiting every table key, in any order, reaches exactly the names listed under present keys |
| `Discovery.DistinctCount` | app/conf.go:23-30 | A name list without repetitions has as many distinct names as entries |
| `Scenarios.LastRegistrationWins` | plugin/plugin.go:41-43 | Registering "grpc" twice keeps the second constructor |
| `Scenarios.SingleInitialPluginDropped` | app/plugin.go:23 | A manager built from one plugin has no plugins and cannot find it |
| `Scenarios.HeaviestLoadFirst` | app/plugin.go:32-42 | With A (100), B (500) and C (500): everything loads, A last, and B and C first in an unspecified order |
| `Scenarios.EqualWeightsEitherOrder` | app/plugin.go:83-87 | With A lighter than B and C of equal weight, both [B, C, A] and [C, B, A] are permutations of [A, B, C] sorted by non-increasing weight, so the sort may produce either |
| `Scenarios.FailingLoadStopsSequence` | app/plugin.go:32-42 | With tracer (700), grpc (500) and late (0), where grpc's `Load` fails: tracer then grpc are attempted with their own configuration, the panic is at index 1, and late is never loaded |
| `Scenarios.UnloadFollowsSortedOrder` | app/plugin.go:34 | After `LoadPlugins`, `UnloadPlugins` unloads tracer before grpc, although grpc was given first |
| `Scenarios.AbsentSectionActivatesNothing` | app/conf.go:12-15 | Key "cache" lists a registered "redis", but the section is absent: nothing is activated and the list is unchanged |
| `Scenarios.DiscoveryIgnoresVisitOrder` | app/conf.go:8-36 | Two present keys that both list redis, with tracer already active: in either visiting order exactly "redis" is returned, once, and stored |

## Left out

- What a plugin's `Load` and `Unload` do (gRPC server, tracer exporter, Redis client), and configuration decoding (`config.Value`, `Scan`). They are opaque calls recorded as trace events, and their errors come from the `loadFails` and `unloadFails` inputs.
- Plugin identity: a plugin is a value (name, weight), so two instances built by the same constructor cannot be told apart. `Create` building a fresh instance on each call is not captured.
- The value `Load` returns (a plugin handle) is ignored by the source and is not modelled.
- The process-wide singletons (`GlobalPluginFactory`, `Lynx()`) are not modelled. The manager gets its factory as a constructor argument.
- `GetRegisterTable` and the `DefaultLynxPluginManager` type that `PreparePlug` is declared on are not part of this model. The table is the `table` field of the factory, and `PreparePlug` is a method of the same manager class.
- Logging (`Errorf`) is not modelled, except as the `logged` names for unload failures and the name carried by `Panicked`. What a panic does to the process (aborting startup) is left out.
- The algorithm inside `sort.Sort` is not modelled; only its contract is (a permutation sorted by non-increasing weight).
- The constructor and `PreparePlug` build the new list and map in local variables and store them once at the end, where Go updates the fields as it goes. No caller can observe the intermediate state, since concurrency is not modelled.
- The failure oracles `loadFails` and `unloadFails` decide a call's outcome by plugin name, where Go's outcome is per call. Two list entries sharing a name, or the two Loads of a name repeated in `LoadSpecificPlugins`, therefore always get the same outcome. No proved property depends on this.
- Manager.PluginManager.LoadSpecificPlugins: requires every given name to be active. For an unknown name the source fetches a nil plugin and fails with a nil dereference, and that runtime failure is not modelled.
- Manager.PluginManager.UnloadSpecificPlugins: requires every given name to be active, for the same reason.
- Manager.PluginManager.PreparePlug: the visiting order `keys` may repeat a key, though Go visits each key once. Uniqueness, completeness and the preservation of earlier entries are stated only when each constructor builds a plugin named as it is registered. Otherwise a plugin stored under a different name can overwrite an entry, and a name can be created again.
- Concurrency: the engine is sequential, and the model is too.
