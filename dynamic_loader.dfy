/**
 * The loader over a fixed list of import thunks (analytics, then
 * calendar). A successful import registers the plugin, starts its
 * `initialize()` without awaiting it and pushes the plugin; a failed import
 * is caught and logged. Loading ends once every import has settled,
 * whatever the outcomes; this loader has no error state.
 */
module DynamicLoader {
  import opened PluginTypes
  import opened LoadPass
  import BasicRegistry
  import EffectLoader

  /** The modules the thunks import, in list order. */
  const ModuleIds: seq<string> := ["analytics", "calendar"]

  /** The attempts of one pass, settled in `order` (indices into the thunk list). */
  function DynamicAttempts(modules: map<string, ImportResult>, order: seq<nat>): seq<Attempt>
    requires IsCompletionOrder(order, |ModuleIds|)
  {
    seq(|order|, k requires 0 <= k < |order| => PlainAttempt(ImportOf(modules, ModuleIds[order[k]])))
  }

  /** One run of the effect. */
  method Run(reg: BasicRegistry.Registry, modules: map<string, ImportResult>, order: seq<nat>) returns (pass: Pass)
    requires reg.Valid() && IsCompletionOrder(order, |ModuleIds|)
    modifies reg
    ensures fresh(pass) && reg.Valid() && !pass.loading && pass.error == None
    ensures var attempts := DynamicAttempts(modules, order);
            && reg.plugins == old(reg.plugins) + Registered(attempts)
            && pass.loadedPlugins == Completed(attempts, false)
            && pass.events == Events(attempts)
  {
    pass := new Pass();
    EffectLoader.SettleAll(reg, pass, DynamicAttempts(modules, order), false);
    pass.Finish();
  }

  /**
   * Because `initialize` is not awaited, a plugin whose `initialize`
   * returns a rejected promise is still pushed; only an import failure or
   * a synchronous throw keeps a plugin out of `loadedPlugins`.
   */
  lemma UnawaitedRejectionStillLoaded(modules: map<string, ImportResult>, order: seq<nat>, k: nat)
    requires IsCompletionOrder(order, |ModuleIds|) && k < |order|
    ensures var a := DynamicAttempts(modules, order)[k];
            var r := ImportOf(modules, ModuleIds[order[k]]);
            Completes(a, false) <==> r.Imported? && (!r.plugin.hasInitialize || r.init != InitThrew)
  {
  }

  /**
   * The pass requests exactly the two listed modules: whatever the order
   * they settle in, one attempt is made for analytics and one for calendar.
   */
  lemma BothModulesRequested(modules: map<string, ImportResult>, order: seq<nat>)
    requires IsCompletionOrder(order, |ModuleIds|)
    ensures |DynamicAttempts(modules, order)| == 2
    ensures multiset(DynamicAttempts(modules, order)) ==
            multiset{PlainAttempt(ImportOf(modules, "analytics")), PlainAttempt(ImportOf(modules, "calendar"))}
  {
    var attempts := DynamicAttempts(modules, order);
    assert attempts == [attempts[0], attempts[1]];
    if order[0] == 0 {
      assert order[1] == 1;
    } else {
      assert order[0] == 1 && order[1] == 0;
    }
  }
}
