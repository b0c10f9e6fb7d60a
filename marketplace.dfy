/**
 * The marketplace plugin registry: the registered descriptors, their
 * context providers, and the installed-plugin records mirrored into a
 * persistent store under one key. `installPlugin` writes the record first
 * and rolls it back when the import or `initialize` fails; `uninstallPlugin`
 * calls the first matching plugin's `cleanup` and filters all three lists.
 * Also the loader effect that loads every installed record.
 */
module Marketplace {
  import opened PluginTypes
  import opened LoadPass
  import opened Composition

  /**
   * What the store holds under `installedPlugins`: nothing (null or the
   * empty string), text that does not parse, or a serialized record list.
   */
  datatype Saved = Nothing | Corrupt | Json(records: seq<Record>)

  /** How a call ends: it returns a value or it throws. */
  datatype Outcome = Returned(value: bool) | Threw

  /** The installed list at start-up: the parsed saved list, or `[]` when nothing usable is saved. */
  function InitialInstalled(saved: Saved): (installed: seq<Record>)
    ensures saved.Json? ==> installed == saved.records
    ensures !saved.Json? ==> installed == []
  {
    match saved
    case Json(records) => records
    case _ => []
  }

  /** `plugin?.ContextProvider` for the result of a `find`. */
  function ProviderOf(found: Option<Descriptor>): Option<ProviderId>
  {
    if found.Some? then found.value.provider else None
  }

  /** No two registered plugins share an id. */
  predicate UniqueIds(plugins: seq<Descriptor>)
  {
    forall i, j :: 0 <= i < j < |plugins| ==> plugins[i].id != plugins[j].id
  }

  /** No two registered plugins share a context provider. */
  predicate UniqueProviders(plugins: seq<Descriptor>)
  {
    forall i, j :: 0 <= i < j < |plugins| && plugins[i].provider.Some? ==> plugins[i].provider != plugins[j].provider
  }

  class Registry {
    var plugins: seq<Descriptor>
    var providers: seq<ProviderId>
    var installed: seq<Record>
    var store: Saved
    /** The `initialize` and `cleanup` calls made by install and uninstall. */
    var hooks: seq<Event>

    /** Initial state: empty lists, and the installed list read from the store. */
    constructor (saved: Saved)
      ensures plugins == [] && providers == [] && hooks == []
      ensures installed == InitialInstalled(saved) && store == saved
    {
      plugins := [];
      providers := [];
      installed := InitialInstalled(saved);
      store := saved;
      hooks := [];
    }

    /** `isInstalled` as the marketplace computes it for a plugin card. */
    predicate IsInstalledNow(id: string): (b: bool)
      reads this
      ensures b <==> exists k :: 0 <= k < |installed| && installed[k].id == id
    {
      IsInstalled(installed, id)
    }

    /**
     * `registerPlugin`: appends the descriptor, and its ContextProvider when
     * it has one. Never rejects a duplicate id.
     */
    method RegisterPlugin(p: Descriptor)
      modifies this
      ensures plugins == old(plugins) + [p]
      ensures providers == old(providers) + ProvidersOf([p])
      ensures installed == old(installed) && store == old(store) && hooks == old(hooks)
    {
      plugins := plugins + [p];
      if p.provider.Some? {
        providers := providers + [p.provider.value];
      }
    }

    /** Phase 1 of `installPlugin`: replace any record for the id by a fresh one at the end, and persist. */
    method RecordInstall(id: string, version: string)
      modifies this
      ensures installed == WithoutRecord(old(installed), id) + [Record(id, version)]
      ensures store == Json(installed)
      ensures plugins == old(plugins) && providers == old(providers) && hooks == old(hooks)
    {
      installed := WithoutRecord(installed, id) + [Record(id, version)];
      store := Json(installed);
    }

    /** Drop every record for the id, and persist (the rollback, and part of uninstall). */
    method RemoveRecord(id: string)
      modifies this
      ensures installed == WithoutRecord(old(installed), id)
      ensures store == Json(installed)
      ensures plugins == old(plugins) && providers == old(providers) && hooks == old(hooks)
    {
      installed := WithoutRecord(installed, id);
      store := Json(installed);
    }

    /**
     * `installPlugin(pluginId, version)`, where `imported` is what the dynamic
     * import of the plugin's module yields. Succeeds exactly when the import
     * succeeds and `initialize`, if present, completes; on failure no record
     * for the id is left, but a plugin registered before `initialize` failed
     * stays registered.
     */
    method InstallPlugin(pluginId: string, version: string, imported: ImportResult) returns (ok: bool)
      modifies this
      ensures ok <==> Completes(PlainAttempt(imported), true)
      ensures installed == WithoutRecord(old(installed), pluginId) + (if ok then [Record(pluginId, version)] else [])
      ensures IsInstalled(installed, pluginId) <==> ok
      ensures store == Json(installed)
      ensures plugins == old(plugins) + Registered([PlainAttempt(imported)])
      ensures providers == old(providers) + ProvidersOf(Registered([PlainAttempt(imported)]))
      ensures hooks == old(hooks) + (if imported.Imported? && imported.plugin.hasInitialize
                                     then [Initialize(imported.plugin.id, None)] else [])
    {
      SingleAttempt(PlainAttempt(imported), true);
      RecordInstall(pluginId, version);
      RollbackRestoresFiltered(old(installed), pluginId, version);
      InstalledExactlyWhenKept(old(installed), pluginId, version);
      ok := false;
      if imported.Imported? {
        var p := imported.plugin;
        RegisterPlugin(p);
        if p.hasInitialize {
          hooks := hooks + [Initialize(p.id, None)];
        }
        ok := !p.hasInitialize || imported.init == InitOk;
      }
      if !ok {
        RemoveRecord(pluginId);
      }
    }

    /**
     * `uninstallPlugin(pluginId)`, where `cleanupThrows` says whether the
     * found plugin's `cleanup` throws. `cleanup` is called at most once, on
     * the first registered plugin with the id. A throwing `cleanup` ends the
     * call before any list changes. Otherwise every plugin with the id,
     * every provider equal to the found plugin's provider and every record
     * with the id are removed, and the call returns true.
     */
    method UninstallPlugin(pluginId: string, cleanupThrows: bool) returns (r: Outcome)
      modifies this
      ensures var found := FindPlugin(old(plugins), pluginId);
              hooks == old(hooks) + (if found.Some? && found.value.hasCleanup then [Cleanup(pluginId)] else [])
      ensures var found := FindPlugin(old(plugins), pluginId);
              if found.Some? && found.value.hasCleanup && cleanupThrows then
                r == Threw && plugins == old(plugins) && providers == old(providers) &&
                installed == old(installed) && store == old(store)
              else
                r == Returned(true) &&
                plugins == WithoutPlugin(old(plugins), pluginId) &&
                providers == WithoutProvider(old(providers), ProviderOf(found)) &&
                installed == WithoutRecord(old(installed), pluginId) &&
                store == Json(installed)
    {
      var found := FindPlugin(plugins, pluginId);
      if found.Some? && found.value.hasCleanup {
        hooks := hooks + [Cleanup(found.value.id)];
        if cleanupThrows {
          return Threw;
        }
      }
      plugins := WithoutPlugin(plugins, pluginId);
      providers := WithoutProvider(providers, ProviderOf(found));
      RemoveRecord(pluginId);
      r := Returned(true);
    }

    /** `wrappedChildren`: the children inside every registered provider, last registered outermost. */
    function WrappedChildren(): (t: Tree)
      reads this
      ensures Layers(t) == Reversed(providers)
      ensures Core(t) == Children
    {
      ComposeLayers(Children, providers);
      Compose(Children, providers)
    }
  }

  /**
   * The rollback undoes phase 1 as far as the id goes: removing the id's
   * records after the install write gives the list as it was with the id's
   * records removed, the other records in their old order.
   */
  lemma RollbackRestoresFiltered(installed: seq<Record>, id: string, version: string)
    ensures WithoutRecord(WithoutRecord(installed, id) + [Record(id, version)], id) == WithoutRecord(installed, id)
  {
    var keep := (r: Record) => r.id != id;
    FilterAppend(WithoutRecord(installed, id), [Record(id, version)], keep);
    FilterMembers(installed, keep);
    FilterUnchanged(WithoutRecord(installed, id), keep);
    assert Filter([Record(id, version)], keep) == [] + Filter([], keep);
  }

  /**
   * After `installPlugin` the id counts as installed exactly when the fresh
   * record was kept: every older record for the id is gone either way.
   */
  lemma InstalledExactlyWhenKept(installed: seq<Record>, id: string, version: string)
    ensures !IsInstalled(WithoutRecord(installed, id), id)
    ensures IsInstalled(WithoutRecord(installed, id) + [Record(id, version)], id)
  {
    FilterMembers(installed, (r: Record) => r.id != id);
    assert Record(id, version) in WithoutRecord(installed, id) + [Record(id, version)];
  }

  /**
   * Reinstalling an installed id whose import then fails loses the old
   * record too: the installed list after the failed call is not the one
   * before it.
   */
  lemma FailedReinstallDropsOldRecord(id: string, v1: string, v2: string)
    ensures WithoutRecord(WithoutRecord([Record(id, v1)], id) + [Record(id, v2)], id) == []
  {
    RollbackRestoresFiltered([Record(id, v1)], id, v2);
  }

  /**
   * Uninstalling an id that is neither registered nor installed changes no
   * list (and, by UninstallPlugin's contract, calls no `cleanup` and
   * returns true).
   */
  lemma UninstallUnknownIsNoop(plugins: seq<Descriptor>, providers: seq<ProviderId>, installed: seq<Record>, id: string)
    requires forall p :: p in plugins ==> p.id != id
    requires !IsInstalled(installed, id)
    ensures FindPlugin(plugins, id) == None
    ensures WithoutPlugin(plugins, id) == plugins
    ensures WithoutProvider(providers, ProviderOf(FindPlugin(plugins, id))) == providers
    ensures WithoutRecord(installed, id) == installed
  {
    FilterUnchanged(plugins, (p: Descriptor) => p.id != id);
    FilterUnchanged(installed, (r: Record) => r.id != id);
  }

  /**
   * When ids and providers are unique, uninstalling keeps the provider list
   * equal to the providers of the remaining plugins, in order.
   */
  lemma UninstallKeepsProviders(plugins: seq<Descriptor>, id: string)
    requires UniqueIds(plugins) && UniqueProviders(plugins)
    ensures ProvidersOf(WithoutPlugin(plugins, id)) ==
            WithoutProvider(ProvidersOf(plugins), ProviderOf(FindPlugin(plugins, id)))
  {
    var found := FindPlugin(plugins, id);
    var keep := (d: Descriptor) => d.id != id;
    match ProviderOf(found)
    case None =>
      var all := (x: ProviderId) => true;
      forall p | p in plugins && p.provider.Some?
        ensures keep(p) <==> all(p.provider.value)
      {
        if p.id == id {
          assert false;
        }
      }
      ProvidersOfFilter(plugins, keep, all);
      FilterUnchanged(ProvidersOf(plugins), all);
    case Some(q) =>
      var k :| 0 <= k < |plugins| && plugins[k] == found.value && found.value.id == id &&
               forall i :: 0 <= i < k ==> plugins[i].id != id;
      var keepProvider := (x: ProviderId) => x != q;
      forall p | p in plugins && p.provider.Some?
        ensures keep(p) <==> keepProvider(p.provider.value)
      {
        var j :| 0 <= j < |plugins| && plugins[j] == p;
        if j < k {
          assert plugins[j].provider != plugins[k].provider;
        } else if k < j {
          assert plugins[k].provider != plugins[j].provider;
        }
      }
      ProvidersOfFilter(plugins, keep, keepProvider);
  }

  /**
   * With a duplicate id the correspondence breaks: uninstalling removes
   * both plugins with the id but only the first one's provider.
   */
  lemma DuplicateIdLeavesStaleProvider()
    ensures var a1 := Descriptor("a", "A", "1", Some("P"), None, false, false, None);
            var a2 := Descriptor("a", "A", "2", Some("Q"), None, false, false, None);
            && WithoutPlugin([a1, a2], "a") == []
            && WithoutProvider(ProvidersOf([a1, a2]), ProviderOf(FindPlugin([a1, a2], "a"))) == ["Q"]
  {
    var a1 := Descriptor("a", "A", "1", Some("P"), None, false, false, None);
    var a2 := Descriptor("a", "A", "2", Some("Q"), None, false, false, None);
    assert [a1, a2][1..] == [a2];
    assert ProvidersOf([a1, a2]) == ["P", "Q"] by {
      assert [a1, a2][..1] == [a1];
    }
    var keep := (x: ProviderId) => x != "P";
    assert Filter(["P", "Q"], keep) == Filter(["Q"], keep) by {
      assert ["P", "Q"][1..] == ["Q"];
    }
    assert Filter(["Q"], keep) == ["Q"] + Filter([], keep);
  }

  /**
   * One attempt of the marketplace loader settling: `registerPlugin` when
   * the module was imported, then `initialize` and the push.
   */
  method SettleAttempt(reg: Registry, pass: Pass, a: Attempt)
    modifies reg, pass
    ensures reg.plugins == old(reg.plugins) + (if a.Reached? then [a.plugin] else [])
    ensures reg.providers == old(reg.providers) + ProvidersOf(if a.Reached? then [a.plugin] else [])
    ensures reg.installed == old(reg.installed) && reg.store == old(reg.store) && reg.hooks == old(reg.hooks)
    ensures pass.loadedPlugins == old(pass.loadedPlugins) + (if Completes(a, true) then [a.plugin] else [])
    ensures pass.events == old(pass.events) + AttemptEvents(a)
    ensures pass.loading == old(pass.loading) && pass.error == old(pass.error)
  {
    if a.Reached? {
      reg.RegisterPlugin(a.plugin);
    }
    pass.Settle(a, true);
  }

  /**
   * The attempts of the marketplace's loader effect: one per installed
   * record, importing the module named by the record's id, settled in
   * `order`.
   */
  function InstalledAttempts(installed: seq<Record>, modules: map<string, ImportResult>, order: seq<nat>): seq<Attempt>
    requires IsCompletionOrder(order, |installed|)
  {
    seq(|order|, k requires 0 <= k < |order| => PlainAttempt(ImportOf(modules, installed[order[k]].id)))
  }

  /**
   * A version mismatch between a record and the imported module only
   * warns: the attempts depend on the records' ids alone.
   */
  lemma VersionIgnored(installed: seq<Record>, versions: seq<string>, modules: map<string, ImportResult>, order: seq<nat>)
    requires |versions| == |installed| && IsCompletionOrder(order, |installed|)
    ensures var other := seq(|installed|, i requires 0 <= i < |installed| => Record(installed[i].id, versions[i]));
            InstalledAttempts(other, modules, order) == InstalledAttempts(installed, modules, order)
  {
  }

  /**
   * `PluginLoader` over the installed records: every attempt settles,
   * failures are isolated, and loading ends afterwards. The installed
   * records themselves are not changed.
   */
  method LoadInstalled(reg: Registry, pass: Pass, modules: map<string, ImportResult>, order: seq<nat>)
    requires IsCompletionOrder(order, |reg.installed|)
    modifies reg, pass
    ensures var attempts := InstalledAttempts(old(reg.installed), modules, order);
            && reg.plugins == old(reg.plugins) + Registered(attempts)
            && reg.providers == old(reg.providers) + ProvidersOf(Registered(attempts))
            && pass.loadedPlugins == old(pass.loadedPlugins) + Completed(attempts, true)
            && pass.events == old(pass.events) + Events(attempts)
    ensures reg.installed == old(reg.installed) && reg.store == old(reg.store) && reg.hooks == old(reg.hooks)
    ensures !pass.loading && pass.error == old(pass.error)
  {
    var attempts := InstalledAttempts(reg.installed, modules, order);
    var k := 0;
    while k < |attempts|
      invariant 0 <= k <= |attempts|
      invariant reg.plugins == old(reg.plugins) + Registered(attempts[..k])
      invariant reg.providers == old(reg.providers) + ProvidersOf(Registered(attempts[..k]))
      invariant pass.loadedPlugins == old(pass.loadedPlugins) + Completed(attempts[..k], true)
      invariant pass.events == old(pass.events) + Events(attempts[..k])
      invariant reg.installed == old(reg.installed) && reg.store == old(reg.store) && reg.hooks == old(reg.hooks)
      invariant pass.error == old(pass.error)
    {
      var a := attempts[k];
      ghost var x := if a.Reached? then [a.plugin] else [];
      ghost var y := if Completes(a, true) then [a.plugin] else [];
      SettleStep(attempts, k, true);
      ProvidersOfAppend(Registered(attempts[..k]), x);
      AppendAssoc(old(reg.plugins), Registered(attempts[..k]), x);
      AppendAssoc(old(reg.providers), ProvidersOf(Registered(attempts[..k])), ProvidersOf(x));
      AppendAssoc(old(pass.loadedPlugins), Completed(attempts[..k], true), y);
      AppendAssoc(old(pass.events), Events(attempts[..k]), AttemptEvents(a));
      SettleAttempt(reg, pass, a);
      k := k + 1;
    }
    assert attempts[..k] == attempts;
    pass.Finish();
  }
}
