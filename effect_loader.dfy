/**
 * The per-request step the effect-based loaders share over the minimal
 * registry: `registerPlugin(plugin)` once the plugin is in hand, then its
 * `initialize`, then the push onto `loadedPlugins`, a failure being caught
 * per request. A whole pass settles its attempts one after another in
 * completion order.
 */
module EffectLoader {
  import opened PluginTypes
  import opened LoadPass
  import BasicRegistry

  /** One attempt settling: registration when it was reached, then `initialize` and the push. */
  method SettleAttempt(reg: BasicRegistry.Registry, pass: Pass, a: Attempt, awaited: bool)
    requires reg.Valid()
    modifies reg, pass
    ensures reg.Valid()
    ensures reg.plugins == old(reg.plugins) + (if a.Reached? then [a.plugin] else [])
    ensures pass.loadedPlugins == old(pass.loadedPlugins) + (if Completes(a, awaited) then [a.plugin] else [])
    ensures pass.events == old(pass.events) + AttemptEvents(a)
    ensures pass.loading == old(pass.loading) && pass.error == old(pass.error)
  {
    if a.Reached? {
      reg.RegisterPlugin(a.plugin);
    }
    pass.Settle(a, awaited);
  }

  /**
   * Settles `attempts` in the order given (the order the requests'
   * promises settled). Every attempt settles whatever the others did: the
   * registry gains the reached plugins, `loadedPlugins` the completed ones,
   * and the provider list stays the providers of the registered plugins.
   */
  method SettleAll(reg: BasicRegistry.Registry, pass: Pass, attempts: seq<Attempt>, awaited: bool)
    requires reg.Valid()
    modifies reg, pass
    ensures reg.Valid()
    ensures reg.plugins == old(reg.plugins) + Registered(attempts)
    ensures pass.loadedPlugins == old(pass.loadedPlugins) + Completed(attempts, awaited)
    ensures pass.events == old(pass.events) + Events(attempts)
    ensures pass.loading == old(pass.loading) && pass.error == old(pass.error)
  {
    var k := 0;
    while k < |attempts|
      invariant 0 <= k <= |attempts|
      invariant reg.Valid()
      invariant reg.plugins == old(reg.plugins) + Registered(attempts[..k])
      invariant pass.loadedPlugins == old(pass.loadedPlugins) + Completed(attempts[..k], awaited)
      invariant pass.events == old(pass.events) + Events(attempts[..k])
      invariant pass.loading == old(pass.loading) && pass.error == old(pass.error)
    {
      var a := attempts[k];
      ghost var x := if a.Reached? then [a.plugin] else [];
      ghost var y := if Completes(a, awaited) then [a.plugin] else [];
      SettleStep(attempts, k, awaited);
      AppendAssoc(old(reg.plugins), Registered(attempts[..k]), x);
      AppendAssoc(old(pass.loadedPlugins), Completed(attempts[..k], awaited), y);
      AppendAssoc(old(pass.events), Events(attempts[..k]), AttemptEvents(a));
      SettleAttempt(reg, pass, a, awaited);
      k := k + 1;
    }
    assert attempts[..k] == attempts;
  }
}
