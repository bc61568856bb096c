/** The plugins that may not be switched off, and the ones that need others. */
module LifecycleRules {
  const REQUIRED_PLUGINS: seq<string> := ["auth", "membership"]

  /** Dependent, then the plugin it needs. */
  const PLUGIN_DEPENDENCIES: seq<(string, string)> := [("store", "stripe")]

  /** Disabling is refused for a required plugin, and while a loaded plugin needs this one. */
  predicate DisableRefused(name: string, loaded: set<string>) {
    name in REQUIRED_PLUGINS || exists d :: d in PLUGIN_DEPENDENCIES && d.1 == name && d.0 in loaded
  }

  /** Enabling is refused while a plugin this one needs is not loaded. */
  predicate EnableRefused(name: string, loaded: set<string>) {
    exists d :: d in PLUGIN_DEPENDENCIES && d.0 == name && d.1 !in loaded
  }

  /** Which plugins these are. */
  lemma RefusalsAre(name: string, loaded: set<string>)
    ensures DisableRefused(name, loaded) <==>
            name == "auth" || name == "membership" || (name == "stripe" && "store" in loaded)
    ensures EnableRefused(name, loaded) <==> name == "store" && "stripe" !in loaded
  {
    assert PLUGIN_DEPENDENCIES[0] == ("store", "stripe");
    if name == "stripe" && "store" in loaded {
      assert ("store", "stripe") in PLUGIN_DEPENDENCIES;
    }
    if name == "store" && "stripe" !in loaded {
      assert ("store", "stripe") in PLUGIN_DEPENDENCIES;
    }
  }

  /** Whatever is in the set has what it needs in the set. */
  predicate Closed(ids: set<string>) {
    forall d :: d in PLUGIN_DEPENDENCIES && d.0 in ids ==> d.1 in ids
  }

  /** Among closed sets, the two refusals are exactly what keeps a set closed. */
  lemma RefusalsKeepSetsClosed(ids: set<string>, name: string)
    requires Closed(ids)
    ensures name !in ids ==> (Closed(ids + {name}) <==> !EnableRefused(name, ids))
    ensures name in ids && name !in REQUIRED_PLUGINS ==> (Closed(ids - {name}) <==> !DisableRefused(name, ids))
  {
  }
}
