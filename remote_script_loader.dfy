/**
 * The loader of remotely hosted plugin scripts. The remote configuration
 * is mandatory: a fetch that throws, a response that is not ok, a body that
 * does not parse, or a `plugins` value that is not a list puts the loader
 * in the error state with nothing requested. Otherwise each listed plugin's
 * script is loaded; the script is expected to leave its descriptor under
 * the global name `plugin_<id>`. A script that fails to load or a missing
 * descriptor fails that request only. A found descriptor is registered and
 * its `initialize` is awaited with the settings of the configuration entry.
 */
module RemoteScriptLoader {
  import opened PluginTypes
  import opened LoadPass
  import BasicRegistry
  import EffectLoader

  /** One entry of the remote configuration's `plugins` list (its script URL is not modelled). */
  datatype PluginInfo = PluginInfo(id: string, settings: Option<Settings>)

  /** The remote configuration; `plugins` is None when it is not a list. */
  datatype RemoteConfig = RemoteConfig(plugins: Option<seq<PluginInfo>>)

  /** The outcome of fetching the remote configuration (body None when it does not parse). */
  datatype RemoteResponse = FetchThrew | Response(ok: bool, body: Option<RemoteConfig>)

  /** How one request goes beyond the descriptor lookup: whether its script loaded, and how `initialize` ends. */
  datatype ScriptOutcome = ScriptOutcome(loaded: bool, init: InitResult)

  /** The global name a plugin script registers itself under. */
  function RegistrationPoint(id: string): (name: string)
    ensures |name| == |id| + 7
    ensures name[..7] == "plugin_" && name[7..] == id
  {
    "plugin_" + id
  }

  /** Distinct plugin ids never share a registration point. */
  lemma RegistrationPointInjective(a: string, b: string)
    ensures RegistrationPoint(a) == RegistrationPoint(b) <==> a == b
  {
    if RegistrationPoint(a) == RegistrationPoint(b) {
      assert a == RegistrationPoint(a)[7..];
    }
  }

  /**
   * The attempt for one configuration entry, where `globals` holds the
   * descriptors that loaded scripts left behind. The request reaches
   * registration exactly when its script loaded and a descriptor sits at
   * its registration point; `initialize` then receives the entry's settings,
   * not the descriptor's.
   */
  function ScriptAttempt(info: PluginInfo, outcome: ScriptOutcome, globals: map<string, Descriptor>): (a: Attempt)
    ensures a.Reached? <==> outcome.loaded && RegistrationPoint(info.id) in globals
    ensures a.Reached? ==>
              a.plugin == globals[RegistrationPoint(info.id)] && a.arg == info.settings && a.init == outcome.init
  {
    if !outcome.loaded then Failed
    else
      var name := RegistrationPoint(info.id);
      if name !in globals then Failed
      else Reached(globals[name], info.settings, outcome.init)
  }

  /** Whether the configuration could be read: an ok response with a body that parses. */
  predicate Readable(response: RemoteResponse)
  {
    response.Response? && response.ok && response.body.Some?
  }

  /** The entries to load, when the configuration is readable and lists them. */
  predicate HasList(response: RemoteResponse)
  {
    Readable(response) && response.body.value.plugins.Some?
  }

  /** The attempts of one pass; `outcomes[i]` belongs to entry `i`, and `order` is the settling order. */
  function ScriptAttempts(infos: seq<PluginInfo>, outcomes: seq<ScriptOutcome>, globals: map<string, Descriptor>, order: seq<nat>): seq<Attempt>
    requires |outcomes| == |infos| && IsCompletionOrder(order, |infos|)
  {
    seq(|order|, k requires 0 <= k < |order| => ScriptAttempt(infos[order[k]], outcomes[order[k]], globals))
  }

  /** One run of the effect. */
  method Run(reg: BasicRegistry.Registry, response: RemoteResponse, globals: map<string, Descriptor>,
             outcomes: seq<ScriptOutcome>, order: seq<nat>)
    returns (pass: Pass)
    requires reg.Valid()
    requires HasList(response) ==>
               |outcomes| == |response.body.value.plugins.value| &&
               IsCompletionOrder(order, |response.body.value.plugins.value|)
    modifies reg
    ensures fresh(pass) && reg.Valid() && !pass.loading
    ensures !Readable(response) ==>
              reg.plugins == old(reg.plugins) && pass.error == Some(ConfigFetchFailed) &&
              pass.loadedPlugins == [] && pass.events == []
    ensures Readable(response) && !HasList(response) ==>
              reg.plugins == old(reg.plugins) && pass.error == Some(RequestsNotAList) &&
              pass.loadedPlugins == [] && pass.events == []
    ensures HasList(response) ==>
              var attempts := ScriptAttempts(response.body.value.plugins.value, outcomes, globals, order);
              && reg.plugins == old(reg.plugins) + Registered(attempts)
              && pass.loadedPlugins == Completed(attempts, true)
              && pass.events == Events(attempts)
              && pass.error == None
  {
    pass := new Pass();
    if response.FetchThrew? || !response.ok || response.body.None? {
      pass.Fail(ConfigFetchFailed);
      return;
    }
    var config := response.body.value;
    if config.plugins.None? {
      pass.Fail(RequestsNotAList);
      return;
    }
    var attempts := ScriptAttempts(config.plugins.value, outcomes, globals, order);
    EffectLoader.SettleAll(reg, pass, attempts, true);
    pass.Finish();
  }

  /**
   * A request whose registration point is empty fails before registration,
   * whatever its script load and `initialize` would do, so it adds nothing
   * to the registry or to `loadedPlugins`.
   */
  lemma MissingPointFails(infos: seq<PluginInfo>, outcomes: seq<ScriptOutcome>, globals: map<string, Descriptor>,
                          order: seq<nat>, k: nat)
    requires |outcomes| == |infos| && IsCompletionOrder(order, |infos|) && k < |order|
    requires RegistrationPoint(infos[order[k]].id) !in globals
    ensures ScriptAttempts(infos, outcomes, globals, order)[k] == Failed
    ensures AttemptEvents(ScriptAttempts(infos, outcomes, globals, order)[k]) == []
  {
  }
}
