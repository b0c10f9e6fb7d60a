# Plugin registry and loaders: a Dafny model

This project models the plugin subsystem of a React application that is built
from optional feature plugins. It covers:

- **The registries.** The minimal registry (`pluginRegistry.js`) keeps the
  registered plugin descriptors and their context providers. It wraps the
  application's children in those providers.
- **The marketplace registry** (`plugin_marketplace.js`). It also keeps the
  installed-plugin records, mirrored into a persistent store.
  - `installPlugin` writes the record first. It rolls the record back when the
    import or `initialize` fails.
  - `uninstallPlugin` calls the first matching plugin's `cleanup`, then
    filters all three lists.
  - The same file also holds a loader effect over the installed records and
    the marketplace's "is installed" test.
- **Route aggregation** (`route_geneartion.js`). The route table is:
  - two core routes;
  - every registered plugin's routes, in plugin order, guarded when they list
    permissions;
  - a final not-found route.
- **Five plugin loaders**, each the effect of a loader component
  (`PluginLoader`, or `RemotePluginLoader` in `plugin_loader.js`):
  - a hard-coded array, registered synchronously (`plugin_loader_basic.js`);
  - a fixed list of import thunks (`dynamic_plugin_loader.js`);
  - the bundled configuration (`plugin_loader_using_config.js`, with
    `plugin_config.js`);
  - a server configuration with fallback to the bundled one
    (`plugin_remote_loader.js`);
  - remote scripts that leave their descriptor under a global name
    (`plugin_loader.js`).

## How the model works

Each source file becomes one module. The shared data shapes live in
`PluginTypes`:

- the descriptor;
- route specifications;
- the installed record;
- the lifecycle events `registerPlugin`, `initialize` and `cleanup`.

`LoadPass` holds what the effect-based loaders share:

- the attempt of one request;
- its outcome: it failed before registration, or it reached registration and
  then `initialize` completed, threw or rejected;
- the class `Pass`, holding `loadedPlugins`, `loading`, `error` and the event
  log;
- specification functions giving, for a sequence of settled attempts, what was
  registered, what was loaded and which events happened.

The registries are classes whose methods update their fields in place. Loops
are methods with loop invariants, proved against those specification functions.

Everything outside the program is a parameter:

- the store's content;
- what each dynamic import yields;
- the fetch response;
- the globals a script leaves;
- whether a `cleanup` throws.

`Promise.all` is modelled by a completion order. This is a permutation of the
request indices (`LoadPass.CompletionOrderCovers`), and the attempts settle in
that order, one after another.

### Behaviour that may surprise (the model follows the code)

- **Duplicate ids are not rejected.** `registerPlugin` appends any descriptor,
  including one whose id is already registered
  (`BasicRegistry.DuplicateRegistrationKept`).
- **Provider nesting order.** The providers are composed with a left fold, so
  the first registered provider ends up innermost and the last one outermost
  (`Composition.NestingOrder`).
- **A failed `initialize` leaves the plugin registered.** It is only kept out
  of `loadedPlugins` (`LoadPass.RegisteredSplits`,
  `Marketplace.Registry.InstallPlugin`).
- **Teardown order and errors.** Teardown runs over `loadedPlugins` in push
  order, not in reverse registration order. A throwing `cleanup` ends the
  teardown loop (`LoadPass.TeardownIsPrefix`).
  - A throwing `cleanup` in `uninstallPlugin` ends the call before any list
    changes.
- **Errors reach the error state.** In the remote-script loader an unreadable
  remote configuration is an error. In the three loaders that read their
  request list from a configuration (bundled, served or remote), a list that
  is not an array is an error. The basic and dynamic loaders iterate fixed
  arrays; the dynamic loader has no error state at all.
- **A failed reinstall drops the old record.** A failed reinstall of an
  already installed id removes the old record as well
  (`Marketplace.FailedReinstallDropsOldRecord`).
- **Duplicate ids break the provider correspondence.** With duplicate ids,
  uninstalling removes every plugin with the id but only the first one's
  provider (`Marketplace.DuplicateIdLeavesStaleProvider`).

## Model

| member | source | states |
|---|---|---|
| PluginTypes.ProvidersOf | pluginRegistry.js:10-17 | the provider list, in registration order, never has more entries than there are plugins |
| PluginTypes.ProvidersOfCount | pluginRegistry.js:10-17 | the provider list has exactly one entry per registered plugin that has a provider |
| PluginTypes.ProvidersOfMembers | pluginRegistry.js:10-17 | a provider is in the provider list exactly when some registered plugin has it |
| PluginTypes.ProvidersOfAppend | pluginRegistry.js:10-17 | the providers of a concatenation are the providers of each part, in order, which is how registration extends the list |
| PluginTypes.FilterMembers | plugin_marketplace.js:79 | `filter` keeps exactly the elements that pass the predicate |
| PluginTypes.FilterUnchanged | plugin_marketplace.js:79 | `filter` returns the list unchanged exactly when every element passes |
| PluginTypes.ProvidersOfFilter | plugin_marketplace.js:70-75 | filtering plugins and then taking their providers equals filtering the providers, when the two filters agree on every plugin with a provider |
| PluginTypes.FindPlugin | plugin_marketplace.js:64 | `find` gives None exactly when no plugin has the id; otherwise it gives the first plugin with the id |
| Composition.Compose | pluginRegistry.js:20-23 | the `reduce`: with providers, the outermost layer is the last registered provider, and the children stay at the core |
| Composition.ComposeLayers | pluginRegistry.js:20-23 | the fold adds one layer per provider: from the outside in, the providers in reverse registration order, with the core untouched |
| Composition.ComposeAppend | pluginRegistry.js:20-23 | folding over `ps + qs` is folding over `ps` and then wrapping the result in `qs` |
| Composition.NestingOrder | plugin_marketplace.js:88-91 | no providers leaves the children as they are; otherwise the last registered provider is outermost, the first registered innermost, and the children are below it |
| Routes.PluginRoutes | route_geneartion.js:11 | the `flatMap`: as many routes as the plugins declare in total, each one a route of some registered plugin |
| Routes.RouteTable | route_geneartion.js:7-51 | `Routes()`: 3 entries plus one per plugin route, `/` and `/login` first, not-found last; every guarded entry is made from a guarded route of a registered plugin |
| Routes.ToEntry | route_geneartion.js:20-45 | a route becomes a guarded entry exactly when its permission list is present and non-empty, requiring that list; path, component and `exact` pass through |
| Routes.PluginRoutesPosition | route_geneartion.js:11 | route `j` of plugin `i` sits right after all routes of the plugins before `i`, so plugin order and each plugin's own order are kept |
| Routes.NoRoutesContributesNothing | route_geneartion.js:11 | a plugin without routes, or with an empty list, adds nothing to the flattened routes |
| Routes.RouteTableShape | route_geneartion.js:14-49 | the table is `/` (exact), `/login`, one entry per plugin route in order, then the path-less not-found route; its length is 3 plus the route count |
| Routes.GuardedEntriesComeFromPlugins | route_geneartion.js:14-49 | core routes are never guarded; every guarded entry comes from a plugin route with permissions and requires exactly those |
| Routes.AnalyticsTable | plugin_example_basic.js:58-71 | with the analytics plugin alone, its two routes appear between the core routes and the not-found route, each guarded by its own permission |
| Routes.DuplicatePathsKept | route_geneartion.js:20-45 | two plugins declaring the same path both keep their entry, in plugin order |
| BasicRegistry.Registry.constructor | pluginRegistry.js:7-8 | both lists start empty, and the provider invariant holds |
| BasicRegistry.Registry.RegisterPlugin | pluginRegistry.js:10-17 | appends the descriptor, and its provider when it has one; the provider list stays the providers of the registered plugins |
| BasicRegistry.Registry.WrappedChildren | pluginRegistry.js:20-23 | the children wrapped with the providers as layers, last registered outermost |
| BasicRegistry.DuplicateRegistrationKept | pluginRegistry.js:10-11 | registering an id already present adds a second entry with that id |
| Marketplace.InitialInstalled | plugin_marketplace.js:9-18 | the installed list at start-up is the saved list when the store parses, and empty when nothing is saved or it does not parse |
| Marketplace.Registry.IsInstalledNow | plugin_marketplace.js:236 | an id counts as installed exactly when some installed record carries it |
| Marketplace.Registry.constructor | plugin_marketplace.js:7-18 | the installed list is the saved list when the store parses, and empty otherwise |
| Marketplace.Registry.RegisterPlugin | plugin_marketplace.js:20-27 | appends the descriptor and its provider; the records, the store and the hooks are unchanged |
| Marketplace.Registry.RecordInstall | plugin_marketplace.js:31-37 | any record for the id is replaced by a fresh one at the end, and the store mirrors the list |
| Marketplace.Registry.RemoveRecord | plugin_marketplace.js:53-57 | every record for the id is dropped, and the store mirrors the list |
| Marketplace.Registry.InstallPlugin | plugin_marketplace.js:29-60 | succeeds exactly when the import succeeds and `initialize` completes; afterwards the id is installed exactly on success; the plugin stays registered even when `initialize` failed |
| Marketplace.Registry.UninstallPlugin | plugin_marketplace.js:62-85 | calls `cleanup` of the first plugin with the id only; a throw changes no list; otherwise it removes every plugin and record with the id and the found plugin's provider, and returns true |
| Marketplace.Registry.WrappedChildren | plugin_marketplace.js:88-91 | the children wrapped with the providers as layers, last registered outermost |
| Marketplace.RollbackRestoresFiltered | plugin_marketplace.js:31-57 | the rollback after a failed install leaves the old list minus the id's records, the other records in their old order |
| Marketplace.InstalledExactlyWhenKept | plugin_marketplace.js:29-60 | after the install write the id is installed; after the rollback it is not, whatever was installed before |
| Marketplace.FailedReinstallDropsOldRecord | plugin_marketplace.js:31-57 | a failed reinstall of an installed id leaves no record for it |
| Marketplace.UninstallUnknownIsNoop | plugin_marketplace.js:62-85 | uninstalling an id that is neither registered nor installed finds nothing and leaves every list unchanged |
| Marketplace.UninstallKeepsProviders | plugin_marketplace.js:69-75 | with unique ids and providers, the provider list after uninstalling is the providers of the remaining plugins |
| Marketplace.DuplicateIdLeavesStaleProvider | plugin_marketplace.js:64-75 | with two plugins sharing an id, uninstalling removes both plugins but only the first one's provider |
| Marketplace.SettleAttempt | plugin_marketplace.js:137-144 | a reached attempt registers its plugin and is pushed exactly when its awaited `initialize` completes; the records are untouched |
| Marketplace.VersionIgnored | plugin_marketplace.js:131-134 | the attempts depend only on the records' ids: a version mismatch changes nothing |
| Marketplace.LoadInstalled | plugin_marketplace.js:119-155 | every installed record is attempted once; the reached plugins are registered with their providers; the completed ones are pushed; loading ends and the records are unchanged |
| LoadPass.CompletionOrderCovers | plugin_marketplace.js:125-148 | a completion order holds every request index exactly once |
| LoadPass.CleanupAll | plugin_loader_using_config.js:56-60 | the `cleanup` calls of the list in order, ending at the first one that throws |
| LoadPass.Pass.constructor | plugin_loader_using_config.js:8-12 | a pass starts loading, without error, with nothing loaded |
| LoadPass.Pass.Settle | plugin_loader_using_config.js:32-39 | records the registration and the `initialize` call, and pushes the plugin exactly when the attempt completes |
| LoadPass.Pass.Finish | plugin_loader_using_config.js:45 | loading ends; nothing else changes |
| LoadPass.Pass.Fail | plugin_loader_using_config.js:46-48 | the error is set and loading ends; nothing loaded changes |
| LoadPass.Pass.Teardown | plugin_loader_using_config.js:55-61 | `cleanup` runs over `loadedPlugins` in push order |
| LoadPass.RegisteredCount | plugin_loader_using_config.js:20-43 | N attempts with K import failures register exactly N - K plugins |
| LoadPass.CompletedCount | plugin_loader_using_config.js:20-43 | N attempts with K failures leave exactly N - K plugins in `loadedPlugins` |
| LoadPass.RegisteredSplits | plugin_loader_using_config.js:32-39 | the registered plugins are exactly the loaded ones plus those whose `initialize` failed |
| LoadPass.RegisterBeforeInitialize | plugin_loader_using_config.js:32-36 | in the event log, a plugin's registration comes right before its `initialize` call, which receives that attempt's argument |
| LoadPass.TeardownOnlyListed | plugin_loader_using_config.js:55-61 | teardown only calls `cleanup` of plugins in the list it is given that have the hook |
| LoadPass.TeardownIsPrefix | plugin_loader_using_config.js:56-60 | teardown's calls are a prefix of one call per plugin with the hook, in order, and all of them when none throws |
| EffectLoader.SettleAttempt | plugin_loader_using_config.js:21-42 | a reached attempt registers its plugin, keeping the provider invariant, and is pushed exactly when it completes |
| EffectLoader.SettleAll | plugin_loader_using_config.js:20-43 | every attempt settles whatever the others did: the reached plugins are registered and the completed ones pushed, in settling order |
| PluginConfig.SettingsFor | plugin_loader_using_config.js:27-29 | a settings entry is found exactly when the configuration has settings with an entry for the id, and it is that entry |
| PluginConfig.DefaultConfigShape | plugin_config.js:2-18 | the bundled configuration enables four plugins in a fixed order; only analytics and calendar have settings |
| ConfigLoader.ConfigAttempt | plugin_loader_using_config.js:21-42 | a request fails before registration exactly when its import fails; otherwise the configured settings replace the module's and are passed to `initialize` |
| ConfigLoader.LoadConfig | plugin_loader_using_config.js:14-50 | an `enabled` value that is not a list is an error with nothing requested; otherwise every request settles, and loading ends without error |
| ConfigLoader.Run | plugin_loader_using_config.js:11-50 | the loader over the bundled configuration never errs and settles one request per enabled id |
| ConfigLoader.LoadedCount | plugin_loader_using_config.js:20-43 | the loaded plugins number the enabled ids minus the failed requests |
| ConfigLoader.DefaultSettingsAttached | plugin_loader_using_config.js:27-36 | under the bundled configuration analytics is initialized with its configured settings, and uploads with its own |
| RemoteConfigLoader.ResolveConfig | plugin_remote_loader.js:17-30 | the server's configuration is used exactly when the response is ok and its body parses; otherwise the bundled one is used |
| RemoteConfigLoader.FetchFailureNotFatal | plugin_remote_loader.js:17-32 | the fallback always has a list, so only a served configuration without one can lead to the error state |
| RemoteConfigLoader.Run | plugin_remote_loader.js:14-64 | the pass over the resolved configuration: an error only when its `enabled` is not a list, otherwise every request settles |
| RemoteScriptLoader.RegistrationPoint | plugin_loader.js:44 | the global name is `plugin_` followed by the id |
| RemoteScriptLoader.RegistrationPointInjective | plugin_loader.js:44 | two ids share a global name exactly when they are equal |
| RemoteScriptLoader.ScriptAttempt | plugin_loader.js:39-61 | a request reaches registration exactly when its script loaded and a descriptor sits at its global name; `initialize` gets the entry's settings |
| RemoteScriptLoader.Run | plugin_loader.js:27-68 | an unreadable configuration or a non-list `plugins` value is an error with nothing requested; otherwise every request settles, and loading ends without error |
| RemoteScriptLoader.MissingPointFails | plugin_loader.js:44-48 | a request whose global name is empty fails and makes no registration or `initialize` call |
| DynamicLoader.Run | dynamic_plugin_loader.js:16-35 | both imports settle; the reached plugins are registered, the completed ones pushed, and loading ends; there is never an error |
| DynamicLoader.UnawaitedRejectionStillLoaded | dynamic_plugin_loader.js:22-31 | because `initialize` is not awaited, a plugin is pushed unless its import failed or `initialize` threw synchronously |
| DynamicLoader.BothModulesRequested | dynamic_plugin_loader.js:6-10 | whatever the settling order, there is exactly one attempt for analytics and one for calendar |
| BasicLoader.RegisterAndInitialize | plugin_loader_basic.js:23-26 | registers the plugin, calls its `initialize` when present, and reports a throw exactly when that call throws |
| BasicLoader.RegisterLoop | plugin_loader_basic.js:22-27 | registers the plugins in array order up to and including the first whose `initialize` throws, or all of them |
| BasicLoader.Run | plugin_loader_basic.js:20-37 | the registry gains the array prefix the loop reaches; the effect throws exactly when some reached `initialize` throws; a cleanup function is returned exactly when none threw, and then every array plugin was registered |
| BasicLoader.NoThrowRegistersAll | plugin_loader_basic.js:22-27 | when no `initialize` throws, every plugin is registered once, in array order, each followed by its `initialize` call |
| BasicLoader.StopsAtFirstThrow | plugin_loader_basic.js:22-27 | a first throw at index t registers exactly the plugins up to t; the rest are not registered |
| BasicLoader.Teardown | plugin_loader_basic.js:30-36 | `cleanup` runs over the whole array in order, and over all of it when none throws |
| BasicLoader.TeardownOnlyAfterFullRun | plugin_loader_basic.js:22-36 | when no `initialize` throws (the only runs that return a cleanup function) every array plugin is registered, so teardown only calls `cleanup` of registered plugins |

## Left out

- Rendering is left out: JSX, the loading and error messages, the marketplace
  page, its alerts and its mock catalogue. Only `isInstalled`
  (`Marketplace.Registry.IsInstalledNow`) and the route table's entries are
  modelled.
- The outside world is given as parameters:
  - `fetch`, dynamic `import`, `loadScript`, `window` and `localStorage`;
  - the console logging;
  - JSON text.

  The store holds either nothing, unparsable text or a record list. A saved
  value that parses to something else is not represented: `null`, `{}`, a
  number or a `null` record. In the source such a value makes the installed
  loader's `map` or its parameter destructuring throw, and that is the only
  way into its error state. So `Marketplace.LoadInstalled` never models that
  error branch and keeps `pass.error` unchanged.
- `Promise.all` concurrency becomes a completion order, and each attempt
  settles as one step. The registration of one request interleaving with
  another request's awaited `initialize` is not modelled. In the source,
  the registry's order follows import completion and `loadedPlugins` follows
  `initialize` completion; the model uses one order for both.
- React state semantics are left out:
  - batching of state updates and stale closures;
  - effects re-running when `registerPlugin` changes identity on re-render,
    or when the installed list changes.

  Each operation acts on the current state.
- A descriptor is a value. The config loaders assign `plugin.settings` onto
  the imported module object, which is shared and aliased; the model attaches
  the settings to a copy.
- Marketplace.Registry.InstallPlugin: a module without a default export is
  modelled as a failed import that leaves the registry unchanged. In the
  source, `registerPlugin(undefined)` first queues an `undefined` entry onto
  `plugins` and only then throws reading its `ContextProvider`. The model
  does not carry that entry. It therefore does not capture that a later render
  of the route table, or `uninstallPlugin`'s `find`, throws on it.
- Marketplace.LoadInstalled: a module without a default export throws at the
  version check (`plugin_marketplace.js:132`) before registration, as
  modelled. No `undefined` entry arises on this path.
- DynamicLoader.Run: the same `undefined` entry is left out for a module
  without a default export.
- ConfigLoader.LoadConfig: the same `undefined` entry is left out for a module
  without a default export whose id has no settings entry. With a settings
  entry, the assignment of `settings` throws before `registerPlugin`, and
  nothing is registered, as modelled.
- RemoteConfigLoader.Run: a served configuration is assumed to hold an object
  for every settings entry. The source accepts any JSON body, and an entry of
  `null`, `0` or `""` fails the `settings[pluginId]` check and is not
  attached. `PluginConfig.SettingsFor` cannot represent such an entry.
- The remote script's `scriptUrl` is left out. Only whether the script
  loaded is a parameter.
- Marketplace.LoadInstalled: the version mismatch warning is console output
  only, and the model does not record it (`Marketplace.VersionIgnored`).
- BasicLoader.Run: the effect ends by throwing when an `initialize` throws.
  The model reports that as `threw`, with no cleanup function
  (`hasTeardown` false). It does not model what React does with the exception.
