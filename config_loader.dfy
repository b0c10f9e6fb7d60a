/**
 * The loader driven by a configuration object: one request per enabled id,
 * in the configuration's order. Each request imports the plugin module
 * named by its id, attaches the id's settings to the descriptor when the
 * configuration has an entry for it, registers the plugin, awaits its
 * `initialize(plugin.settings)` and pushes it; a failure is caught per
 * request. An `enabled` value that is not a list puts the loader in the
 * error state. The bundled configuration is the one this loader reads.
 */
module ConfigLoader {
  import opened PluginTypes
  import opened LoadPass
  import opened PluginConfig
  import BasicRegistry
  import EffectLoader

  /**
   * The attempt for one enabled id. The descriptor that is registered is
   * the module's with the id's settings attached when there are any, and
   * `initialize` receives the descriptor's settings after that step.
   */
  function ConfigAttempt(config: Config, modules: map<string, ImportResult>, id: string): (a: Attempt)
    ensures a.Failed? <==> ImportOf(modules, id).ImportFailed?
    ensures a.Reached? ==>
              var m := ImportOf(modules, id).plugin;
              && a.init == ImportOf(modules, id).init
              && a.arg == a.plugin.settings
              && a.plugin.settings == (if SettingsFor(config, id).Some? then SettingsFor(config, id) else m.settings)
              && a.plugin == m.(settings := a.plugin.settings)
  {
    match ImportOf(modules, id)
    case ImportFailed => Failed
    case Imported(m, init) =>
      var p := if SettingsFor(config, id).Some? then m.(settings := SettingsFor(config, id)) else m;
      Reached(p, p.settings, init)
  }

  /** The attempts of one pass, settled in `order` (request indices into `enabled`). */
  function ConfigAttempts(config: Config, modules: map<string, ImportResult>, order: seq<nat>): seq<Attempt>
    requires config.enabled.Some? && IsCompletionOrder(order, |config.enabled.value|)
  {
    var enabled := config.enabled.value;
    seq(|order|, k requires 0 <= k < |order| => ConfigAttempt(config, modules, enabled[order[k]]))
  }

  /**
   * One run of the effect for `config`. With a list of enabled ids every
   * request settles, only completed ones end in `loadedPlugins`, and
   * loading ends without an error; otherwise nothing is requested and the
   * pass ends in the error state.
   */
  method LoadConfig(reg: BasicRegistry.Registry, config: Config, modules: map<string, ImportResult>, order: seq<nat>)
    returns (pass: Pass)
    requires reg.Valid()
    requires config.enabled.Some? ==> IsCompletionOrder(order, |config.enabled.value|)
    modifies reg
    ensures fresh(pass) && reg.Valid() && !pass.loading
    ensures config.enabled.None? ==>
              && reg.plugins == old(reg.plugins)
              && pass.error == Some(RequestsNotAList) && pass.loadedPlugins == [] && pass.events == []
    ensures config.enabled.Some? ==>
              var attempts := ConfigAttempts(config, modules, order);
              && reg.plugins == old(reg.plugins) + Registered(attempts)
              && pass.loadedPlugins == Completed(attempts, true)
              && pass.events == Events(attempts)
              && pass.error == None
  {
    pass := new Pass();
    if config.enabled.None? {
      pass.Fail(RequestsNotAList);
      return;
    }
    EffectLoader.SettleAll(reg, pass, ConfigAttempts(config, modules, order), true);
    pass.Finish();
  }

  /** The effect of the loader over the bundled configuration. */
  method Run(reg: BasicRegistry.Registry, modules: map<string, ImportResult>, order: seq<nat>) returns (pass: Pass)
    requires reg.Valid() && IsCompletionOrder(order, 4)
    modifies reg
    ensures fresh(pass) && reg.Valid() && !pass.loading && pass.error == None
    ensures var attempts := ConfigAttempts(DefaultConfig, modules, order);
            && reg.plugins == old(reg.plugins) + Registered(attempts)
            && pass.loadedPlugins == Completed(attempts, true)
            && pass.events == Events(attempts)
  {
    pass := LoadConfig(reg, DefaultConfig, modules, order);
  }

  /**
   * Each attempt of a pass belongs to one enabled id: attempt `k` is the
   * request for `enabled[order[k]]`, so failures are counted per request
   * and the loaded plugins number the requests minus the failures.
   */
  lemma LoadedCount(config: Config, modules: map<string, ImportResult>, order: seq<nat>)
    requires config.enabled.Some? && IsCompletionOrder(order, |config.enabled.value|)
    ensures var attempts := ConfigAttempts(config, modules, order);
            |Completed(attempts, true)| == |config.enabled.value| - Failures(attempts, true)
  {
    CompletedCount(ConfigAttempts(config, modules, order), true);
  }

  /**
   * Under the bundled configuration the analytics plugin is initialized
   * with its configured settings, replacing whatever settings its module
   * declared, while a plugin without an entry keeps its own.
   */
  lemma DefaultSettingsAttached(modules: map<string, ImportResult>)
    ensures var a := ConfigAttempt(DefaultConfig, modules, "analytics");
            a.Reached? ==> a.arg == Some(map["refreshInterval" := Number(60000)])
    ensures var a := ConfigAttempt(DefaultConfig, modules, "uploads");
            a.Reached? ==> a.arg == ImportOf(modules, "uploads").plugin.settings
  {
    DefaultConfigShape();
  }
}
