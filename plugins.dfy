/**
 * The plugin contract and the process-wide plugin factory (plugin/plugin.go).
 *
 * A plugin is seen by the core only through its Name() and Weight(); what its
 * Load and Unload do is opaque, so the manager records them as trace events.
 * A registered constructor closure is modelled by the plugin record it builds.
 */
module Plugins {
  import opened Wrappers

  /** A plugin as the core sees it: a stable name and a load priority. */
  datatype Plugin = Plugin(name: string, weight: int)

  /** The configuration subtree handed to a plugin's Load; its content is opaque. */
  type ConfigValue = string

  /** The message of the error Create returns for an unregistered name. */
  const InvalidPluginName: string := "invalid plugin name"

  /**
   * The name -> constructor registry. `table` is the registration table
   * (configuration key -> plugin names) that discovery reads through
   * GetRegisterTable; how it is filled is not part of this model.
   */
  class Factory {
    var creators: map<string, Plugin>
    var table: map<string, seq<string>>

    /** newGlobalPluginFactory: a factory with no constructor registered. */
    constructor ()
      ensures creators == map[] && table == map[]
      ensures forall name :: !Exists(name)
    {
      creators := map[];
      table := map[];
    }

    /** Stores (or overwrites: last writer wins) the constructor under `name`; never fails. */
    method Register(name: string, creator: Plugin)
      modifies this`creators
      ensures creators == old(creators)[name := creator]
      ensures Exists(name) && Create(name) == Ok(creator)
      ensures forall other :: other != name ==> Create(other) == old(Create(other))
    {
      creators := creators[name := creator];
    }

    /** True exactly when a constructor is registered under `name`. */
    function Exists(name: string): (r: bool)
      reads this
      ensures r <==> name in creators
    {
      name in creators
    }

    /**
     * Builds the plugin registered under `name`; an unregistered name yields
     * the "invalid plugin name" error and builds nothing.
     */
    function Create(name: string): (r: Result<Plugin>)
      reads this
      ensures r.Ok? <==> Exists(name)
      ensures r.Ok? ==> r.value == creators[name]
      ensures r.Err? ==> r.msg == InvalidPluginName
    {
      if name in creators then Ok(creators[name]) else Err(InvalidPluginName)
    }
  }

  /** Every constructor builds a plugin whose Name() is the name it is registered under. */
  ghost predicate WellNamed(creators: map<string, Plugin>)
  {
    forall n :: n in creators ==> creators[n].name == n
  }
}
