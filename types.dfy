/**
 * The data shapes shared by the plugin registry, the loaders and the route
 * table: a plugin's descriptor, its route specifications, the installed-plugin
 * record, and the lifecycle events the model records. Also the list
 * operations (filtering, lookup, provider extraction) that the registry's
 * state updates are built from.
 */
module PluginTypes {

  datatype Option<+T> = None | Some(value: T)

  /** Identity of a plugin's ContextProvider component (compared by identity). */
  type ProviderId = string

  /** A value inside a plugin's settings object. */
  datatype SettingValue = Number(n: int) | Text(s: string)

  /** A plugin's settings object, e.g. { refreshInterval: 60000 }. */
  type Settings = map<string, SettingValue>

  /**
   * One entry of a plugin's `routes` list. `exact` is None when the route
   * object has no `exact` key; `permissions` is None when it has no
   * `permissions` key.
   */
  datatype RouteSpec = RouteSpec(
    path: string,
    component: string,
    exact: Option<bool>,
    permissions: Option<seq<string>>)

  /**
   * A plugin descriptor: the object a plugin module exports. `provider` is
   * its optional ContextProvider, `routes` is None when the key is absent,
   * `hasInitialize` / `hasCleanup` say whether the lifecycle hooks exist,
   * and `settings` is the `settings` property a loader may attach.
   */
  datatype Descriptor = Descriptor(
    id: string,
    name: string,
    version: string,
    provider: Option<ProviderId>,
    routes: Option<seq<RouteSpec>>,
    hasInitialize: bool,
    hasCleanup: bool,
    settings: Option<Settings>)

  /** An installed-plugin record `{ id, version }`. */
  datatype Record = Record(id: string, version: string)

  /** Lifecycle events, in the order they happen. */
  datatype Event =
    | Register(id: string)
    | Initialize(id: string, arg: Option<Settings>)
    | Cleanup(id: string)

  /**
   * The context providers of `plugins`, in registration order: one entry per
   * plugin that has a ContextProvider.
   */
  function ProvidersOf(plugins: seq<Descriptor>): (r: seq<ProviderId>)
    ensures |r| <= |plugins|
  {
    if plugins == [] then []
    else
      var init := plugins[..|plugins| - 1];
      var last := plugins[|plugins| - 1];
      assert plugins == init + [last];
      ProvidersOf(init) + (if last.provider.Some? then [last.provider.value] else [])
  }

  /** A provider is listed exactly when some plugin in the list has it. */
  lemma {:induction false} ProvidersOfMembers(plugins: seq<Descriptor>)
    ensures forall q :: q in ProvidersOf(plugins) <==> exists p :: p in plugins && p.provider == Some(q)
  {
    if plugins != [] {
      var init := plugins[..|plugins| - 1];
      ProvidersOfMembers(init);
      assert plugins == init + [plugins[|plugins| - 1]];
    }
  }

  lemma {:induction false} ProvidersOfAppend(a: seq<Descriptor>, b: seq<Descriptor>)
    ensures ProvidersOf(a + b) == ProvidersOf(a) + ProvidersOf(b)
    decreases |b|
  {
    if b == [] {
      assert a + b == a;
    } else {
      var b' := b[..|b| - 1];
      assert (a + b)[..|a + b| - 1] == a + b';
      assert (a + b)[|a + b| - 1] == b[|b| - 1];
      ProvidersOfAppend(a, b');
    }
  }

  /** The provider list has one entry per plugin that has a provider: the plugins without one add nothing. */
  lemma {:induction false} ProvidersOfCount(plugins: seq<Descriptor>)
    ensures |ProvidersOf(plugins)| == |Filter(plugins, (p: Descriptor) => p.provider.Some?)|
  {
    if plugins != [] {
      var init, last := plugins[..|plugins| - 1], plugins[|plugins| - 1];
      var hasProvider := (p: Descriptor) => p.provider.Some?;
      assert plugins == init + [last];
      ProvidersOfCount(init);
      FilterAppend(init, [last], hasProvider);
      assert Filter([last], hasProvider) == (if last.provider.Some? then [last] else []) + Filter([], hasProvider);
    }
  }

  lemma AppendAssoc<T>(a: seq<T>, b: seq<T>, c: seq<T>)
    ensures (a + b) + c == a + (b + c)
  {
  }

  /** The elements of `s` that satisfy `keep`, in their original order (JavaScript's `filter`). */
  function Filter<T>(s: seq<T>, keep: T -> bool): (r: seq<T>)
    ensures |r| <= |s|
  {
    if s == [] then []
    else (if keep(s[0]) then [s[0]] else []) + Filter(s[1..], keep)
  }

  /** The filtered list holds exactly the elements of the list that pass. */
  lemma {:induction false} FilterMembers<T(!new)>(s: seq<T>, keep: T -> bool)
    ensures forall x :: x in Filter(s, keep) <==> x in s && keep(x)
  {
    if s != [] {
      FilterMembers(s[1..], keep);
      assert s == [s[0]] + s[1..];
    }
  }

  lemma {:induction false} FilterAppend<T>(a: seq<T>, b: seq<T>, keep: T -> bool)
    ensures Filter(a + b, keep) == Filter(a, keep) + Filter(b, keep)
  {
    if a == [] {
      assert a + b == b;
    } else {
      var head := if keep(a[0]) then [a[0]] else [];
      assert (a + b)[0] == a[0];
      assert (a + b)[1..] == a[1..] + b;
      FilterAppend(a[1..], b, keep);
      calc {
        Filter(a + b, keep);
        head + Filter(a[1..] + b, keep);
        head + (Filter(a[1..], keep) + Filter(b, keep));
        (head + Filter(a[1..], keep)) + Filter(b, keep);
      }
    }
  }

  /** Filtering keeps everything exactly when every element passes. */
  lemma {:induction false} FilterUnchanged<T(!new)>(s: seq<T>, keep: T -> bool)
    ensures Filter(s, keep) == s <==> forall x :: x in s ==> keep(x)
  {
    if s != [] {
      FilterUnchanged(s[1..], keep);
      if !keep(s[0]) {
        assert |Filter(s, keep)| < |s|;
      }
    }
  }

  /**
   * Filtering the plugins and then taking their providers is filtering the
   * providers, provided the two filters agree on every plugin that has a
   * provider.
   */
  lemma {:induction false} ProvidersOfFilter(plugins: seq<Descriptor>, keep: Descriptor -> bool, keepProvider: ProviderId -> bool)
    requires forall p :: p in plugins && p.provider.Some? ==> (keep(p) <==> keepProvider(p.provider.value))
    ensures ProvidersOf(Filter(plugins, keep)) == Filter(ProvidersOf(plugins), keepProvider)
  {
    if plugins != [] {
      var p, rest := plugins[0], plugins[1..];
      var head := if keep(p) then [p] else [];
      assert plugins == [p] + rest;
      ProvidersOfFilter(rest, keep, keepProvider);
      ProvidersOfAppend(head, Filter(rest, keep));
      ProvidersOfAppend([p], rest);
      FilterAppend(ProvidersOf([p]), ProvidersOf(rest), keepProvider);
      assert ProvidersOf([p]) == ProvidersOf([]) + (if p.provider.Some? then [p.provider.value] else []);
      assert ProvidersOf([]) + ProvidersOf(head) == ProvidersOf(head);
      if p.provider.Some? {
        var q := p.provider.value;
        assert Filter([q], keepProvider) == (if keepProvider(q) then [q] else []) + Filter([], keepProvider);
      }
    }
  }

  /** `plugins.filter(p => p.id !== id)` */
  function WithoutPlugin(plugins: seq<Descriptor>, id: string): seq<Descriptor>
  {
    Filter(plugins, (p: Descriptor) => p.id != id)
  }

  /** `installed.filter(p => p.id !== id)` */
  function WithoutRecord(installed: seq<Record>, id: string): seq<Record>
  {
    Filter(installed, (r: Record) => r.id != id)
  }

  /**
   * `providers.filter(Provider => Provider !== provider)`; a missing provider
   * (undefined) equals no registered provider, so nothing is removed.
   */
  function WithoutProvider(providers: seq<ProviderId>, provider: Option<ProviderId>): seq<ProviderId>
  {
    match provider
    case None => providers
    case Some(q) => Filter(providers, (x: ProviderId) => x != q)
  }

  /** `installed.some(p => p.id === id)` */
  predicate IsInstalled(installed: seq<Record>, id: string)
  {
    exists r :: r in installed && r.id == id
  }

  /** `plugins.find(p => p.id === id)`: the first registered plugin with that id. */
  function FindPlugin(plugins: seq<Descriptor>, id: string): (r: Option<Descriptor>)
    ensures r.None? <==> forall p :: p in plugins ==> p.id != id
    ensures r.Some? ==> exists k :: 0 <= k < |plugins| && plugins[k] == r.value && r.value.id == id &&
                                    forall j :: 0 <= j < k ==> plugins[j].id != id
  {
    if plugins == [] then None
    else if plugins[0].id == id then Some(plugins[0])
    else
      var r := FindPlugin(plugins[1..], id);
      assert forall j :: 1 <= j < |plugins| ==> plugins[j] == plugins[1..][j - 1];
      r
  }

  /** How many entries of `plugins` carry `id`. */
  function CountId(plugins: seq<Descriptor>, id: string): (n: nat)
    ensures n <= |plugins|
    ensures n == 0 <==> forall p :: p in plugins ==> p.id != id
  {
    if plugins == [] then 0
    else (if plugins[0].id == id then 1 else 0) + CountId(plugins[1..], id)
  }

  lemma {:induction false} CountIdAppend(a: seq<Descriptor>, b: seq<Descriptor>, id: string)
    ensures CountId(a + b, id) == CountId(a, id) + CountId(b, id)
  {
    if a == [] {
      assert a + b == b;
    } else {
      assert (a + b)[0] == a[0];
      assert (a + b)[1..] == a[1..] + b;
      CountIdAppend(a[1..], b, id);
    }
  }
}
