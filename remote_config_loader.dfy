/**
 * The loader that first asks the server for its configuration. An ok
 * response whose body parses is the configuration; a response that is not
 * ok, a body that does not parse, or a fetch that throws all fall back to
 * the bundled configuration, without an error. The pass over the resolved
 * configuration is the configuration-driven one.
 */
module RemoteConfigLoader {
  import opened PluginTypes
  import opened LoadPass
  import opened PluginConfig
  import BasicRegistry
  import ConfigLoader

  /**
   * The outcome of fetching the configuration: the fetch threw, or a
   * response arrived with its `ok` flag and its body (None when reading
   * the body as JSON throws).
   */
  datatype ConfigResponse = FetchThrew | Response(ok: bool, body: Option<Config>)

  /** Whether the server's configuration is used. */
  predicate Served(response: ConfigResponse)
  {
    response.Response? && response.ok && response.body.Some?
  }

  /** The configuration the loader goes on with. */
  function ResolveConfig(response: ConfigResponse): (config: Config)
    ensures Served(response) ==> config == response.body.value
    ensures !Served(response) ==> config == DefaultConfig
  {
    match response
    case FetchThrew => DefaultConfig
    case Response(ok, body) =>
      if !ok then DefaultConfig
      else if body.None? then DefaultConfig
      else body.value
  }

  /**
   * A failed fetch is never surfaced: the fallback always has a list of
   * enabled ids, so only a served configuration can put the loader in the
   * error state.
   */
  lemma FetchFailureNotFatal(response: ConfigResponse)
    ensures ResolveConfig(response).enabled.None? ==> Served(response) && response.body.value.enabled.None?
  {
  }

  /** One run of the effect. */
  method Run(reg: BasicRegistry.Registry, response: ConfigResponse, modules: map<string, ImportResult>, order: seq<nat>)
    returns (pass: Pass)
    requires reg.Valid()
    requires ResolveConfig(response).enabled.Some? ==> IsCompletionOrder(order, |ResolveConfig(response).enabled.value|)
    modifies reg
    ensures fresh(pass) && reg.Valid() && !pass.loading
    ensures var config := ResolveConfig(response);
            config.enabled.None? ==>
              && reg.plugins == old(reg.plugins)
              && pass.error == Some(RequestsNotAList) && pass.loadedPlugins == [] && pass.events == []
    ensures var config := ResolveConfig(response);
            config.enabled.Some? ==>
              var attempts := ConfigLoader.ConfigAttempts(config, modules, order);
              && reg.plugins == old(reg.plugins) + Registered(attempts)
              && pass.loadedPlugins == Completed(attempts, true)
              && pass.events == Events(attempts)
              && pass.error == None
  {
    var config: Config;
    if response.FetchThrew? {
      config := DefaultConfig;
    } else if response.ok && response.body.Some? {
      config := response.body.value;
    } else {
      config := DefaultConfig;
    }
    pass := ConfigLoader.LoadConfig(reg, config, modules, order);
  }
}
