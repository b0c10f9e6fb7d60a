/**
 * What every effect-based plugin loader has in common. A loader issues one
 * attempt per requested plugin; the attempts settle in some completion
 * order. An attempt either fails before registration (the import or script
 * load failed, or no descriptor was found), or registers the plugin, calls
 * its `initialize` if it has one, and pushes it onto `loadedPlugins` unless
 * that call failed. Failures are caught per attempt. Teardown calls
 * `cleanup` over `loadedPlugins` in push order and stops at the first
 * `cleanup` that throws.
 */
module LoadPass {
  import opened PluginTypes

  /** How a call to a plugin's `initialize` ends. */
  datatype InitResult =
    | InitOk
    | InitThrew     // threw synchronously
    | InitRejected  // returned a promise that rejected

  /** What importing one requested plugin module yields. */
  datatype ImportResult = ImportFailed | Imported(plugin: Descriptor, init: InitResult)

  /**
   * One settled attempt: it failed before registration, or it reached
   * registration with descriptor `plugin`, whose `initialize` (if any) was
   * called with `arg` and ended with `init`.
   */
  datatype Attempt = Failed | Reached(plugin: Descriptor, arg: Option<Settings>, init: InitResult)

  /**
   * The attempt made from an import when the loader calls `initialize()`
   * without an argument and attaches no settings.
   */
  function PlainAttempt(r: ImportResult): Attempt
  {
    match r
    case ImportFailed => Failed
    case Imported(p, init) => Reached(p, None, init)
  }

  /**
   * What `import(`../../plugins/${id}`)` yields, given what each plugin
   * module yields: an id without a module fails to import.
   */
  function ImportOf(modules: map<string, ImportResult>, id: string): ImportResult
  {
    if id in modules then modules[id] else ImportFailed
  }

  /** Why a whole loading pass ended in the error state. */
  datatype LoadError =
    | ConfigFetchFailed  // the remote configuration response was not ok, or unreadable
    | RequestsNotAList   // the resolved configuration's request list is not an array

  /**
   * `order` lists the request indices 0..n-1 in the order their attempts
   * settled: each request settles exactly once.
   */
  predicate IsCompletionOrder(order: seq<nat>, n: nat)
  {
    && |order| == n
    && (forall k :: 0 <= k < n ==> order[k] < n)
    && (forall i, j :: 0 <= i < j < n ==> order[i] != order[j])
  }

  /** The values a sequence of indices holds. */
  function Elements(s: seq<nat>): set<nat>
  {
    set x | x in s
  }

  /** A sequence without repeats has as many distinct values as positions. */
  lemma {:induction false} DistinctCard(s: seq<nat>)
    requires forall i, j :: 0 <= i < j < |s| ==> s[i] != s[j]
    ensures |Elements(s)| == |s|
  {
    if s != [] {
      var init, last := s[..|s| - 1], s[|s| - 1];
      DistinctCard(init);
      assert Elements(s) == Elements(init) + {last};
      assert last !in Elements(init);
      assert Elements(init) * {last} == {};
    } else {
      assert Elements(s) == {};
    }
  }

  /**
   * A completion order is a permutation of the requests: every request
   * index appears in it, at exactly one position.
   */
  lemma CompletionOrderCovers(order: seq<nat>, n: nat)
    requires IsCompletionOrder(order, n)
    ensures forall i :: 0 <= i < n ==> i in order
    ensures forall k, l :: 0 <= k < |order| && 0 <= l < |order| && order[k] == order[l] ==> k == l
  {
    var indices: seq<nat> := seq(n, i requires 0 <= i => i);
    DistinctCard(order);
    DistinctCard(indices);
    var values, range := Elements(order), Elements(indices);
    assert values <= range by {
      forall x | x in values ensures x in range {
        assert indices[x] == x;
      }
    }
    assert range == values + (range - values);
    assert values * (range - values) == {};
    assert values == range;
    forall i | 0 <= i < n
      ensures i in order
    {
      assert indices[i] == i;
      assert i in range;
    }
  }

  /**
   * Whether an attempt ends with the plugin pushed onto `loadedPlugins`.
   * When the loader awaits `initialize`, both a throw and a rejection make
   * the attempt fail; when it does not await, only a synchronous throw does.
   */
  predicate Completes(a: Attempt, awaited: bool)
  {
    a.Reached? && (!a.plugin.hasInitialize || a.init == InitOk || (!awaited && a.init == InitRejected))
  }

  /** The plugins registered by a sequence of settled attempts, in settling order. */
  function Registered(attempts: seq<Attempt>): seq<Descriptor>
  {
    if attempts == [] then []
    else
      var a := attempts[|attempts| - 1];
      Registered(attempts[..|attempts| - 1]) + (if a.Reached? then [a.plugin] else [])
  }

  /** The plugins pushed onto `loadedPlugins` by a sequence of settled attempts. */
  function Completed(attempts: seq<Attempt>, awaited: bool): seq<Descriptor>
  {
    if attempts == [] then []
    else
      var a := attempts[|attempts| - 1];
      Completed(attempts[..|attempts| - 1], awaited) + (if Completes(a, awaited) then [a.plugin] else [])
  }

  /** The plugins that were registered but whose `initialize` failed. */
  function InitFailed(attempts: seq<Attempt>, awaited: bool): seq<Descriptor>
  {
    if attempts == [] then []
    else
      var a := attempts[|attempts| - 1];
      InitFailed(attempts[..|attempts| - 1], awaited) +
        (if a.Reached? && !Completes(a, awaited) then [a.plugin] else [])
  }

  /** The number of attempts that did not end in `loadedPlugins`. */
  function Failures(attempts: seq<Attempt>, awaited: bool): nat
  {
    if attempts == [] then 0
    else
      Failures(attempts[..|attempts| - 1], awaited) +
        (if Completes(attempts[|attempts| - 1], awaited) then 0 else 1)
  }

  /** The number of attempts that failed before registration. */
  function LoadFailures(attempts: seq<Attempt>): nat
  {
    if attempts == [] then 0
    else LoadFailures(attempts[..|attempts| - 1]) + (if attempts[|attempts| - 1].Failed? then 1 else 0)
  }

  /** The lifecycle events of one attempt: its registration, then its `initialize` call. */
  function AttemptEvents(a: Attempt): seq<Event>
  {
    match a
    case Failed => []
    case Reached(p, arg, _) => [Register(p.id)] + (if p.hasInitialize then [Initialize(p.id, arg)] else [])
  }

  function Events(attempts: seq<Attempt>): seq<Event>
  {
    if attempts == [] then []
    else Events(attempts[..|attempts| - 1]) + AttemptEvents(attempts[|attempts| - 1])
  }

  /**
   * The `cleanup` calls of `plugins.forEach(p => { if (p.cleanup) p.cleanup(); })`
   * when the plugins whose id is in `failing` throw from `cleanup`: the
   * throwing call is made and ends the loop.
   */
  function TeardownEvents(plugins: seq<Descriptor>, failing: set<string>): seq<Event>
  {
    if plugins == [] then []
    else if !plugins[0].hasCleanup then TeardownEvents(plugins[1..], failing)
    else if plugins[0].id in failing then [Cleanup(plugins[0].id)]
    else [Cleanup(plugins[0].id)] + TeardownEvents(plugins[1..], failing)
  }

  /** One `cleanup` call per plugin that has the hook, in list order. */
  function CleanupsOf(plugins: seq<Descriptor>): seq<Event>
  {
    if plugins == [] then []
    else (if plugins[0].hasCleanup then [Cleanup(plugins[0].id)] else []) + CleanupsOf(plugins[1..])
  }

  /**
   * `plugins.forEach(p => { if (p.cleanup) p.cleanup(); })`, where the
   * plugins whose id is in `failing` throw from `cleanup`.
   */
  method CleanupAll(plugins: seq<Descriptor>, failing: set<string>) returns (calls: seq<Event>)
    ensures calls == TeardownEvents(plugins, failing)
  {
    calls := [];
    var i := 0;
    while i < |plugins|
      invariant 0 <= i <= |plugins|
      invariant calls + TeardownEvents(plugins[i..], failing) == TeardownEvents(plugins, failing)
    {
      var p := plugins[i];
      assert plugins[i..][0] == p && plugins[i..][1..] == plugins[i + 1..];
      if p.hasCleanup {
        calls := calls + [Cleanup(p.id)];
        if p.id in failing {
          return;
        }
      }
      i := i + 1;
    }
  }

  /** The state a loader's effect keeps: `loadedPlugins`, `loading`, `error`, and the lifecycle events it caused. */
  class Pass {
    var loadedPlugins: seq<Descriptor>
    var loading: bool
    var error: Option<LoadError>
    var events: seq<Event>

    constructor ()
      ensures loadedPlugins == [] && loading && error == None && events == []
    {
      loadedPlugins := [];
      loading := true;
      error := None;
      events := [];
    }

    /**
     * Settles one attempt right after the loader made its `registerPlugin`
     * call (for a `Reached` attempt): records that registration and the
     * `initialize` call, and pushes the plugin unless `initialize` failed.
     */
    method Settle(a: Attempt, awaited: bool)
      modifies this
      ensures loadedPlugins == old(loadedPlugins) + (if Completes(a, awaited) then [a.plugin] else [])
      ensures events == old(events) + AttemptEvents(a)
      ensures loading == old(loading) && error == old(error)
    {
      if a.Reached? {
        events := events + [Register(a.plugin.id)];
        if a.plugin.hasInitialize {
          events := events + [Initialize(a.plugin.id, a.arg)];
        }
        if Completes(a, awaited) {
          loadedPlugins := loadedPlugins + [a.plugin];
        }
      }
    }

    /** `setLoading(false)` once every attempt has settled. */
    method Finish()
      modifies this
      ensures !loading
      ensures loadedPlugins == old(loadedPlugins) && error == old(error) && events == old(events)
    {
      loading := false;
    }

    /** `setError(err); setLoading(false)` */
    method Fail(e: LoadError)
      modifies this
      ensures !loading && error == Some(e)
      ensures loadedPlugins == old(loadedPlugins) && events == old(events)
    {
      error := Some(e);
      loading := false;
    }

    /** The effect's cleanup function: `cleanup` over `loadedPlugins`. */
    method Teardown(failing: set<string>)
      modifies this
      ensures events == old(events) + TeardownEvents(loadedPlugins, failing)
      ensures loadedPlugins == old(loadedPlugins) && loading == old(loading) && error == old(error)
    {
      var calls := CleanupAll(loadedPlugins, failing);
      events := events + calls;
    }
  }

  /** Every attempt either fails before registration or registers exactly one plugin. */
  lemma {:induction false} RegisteredCount(attempts: seq<Attempt>)
    ensures |Registered(attempts)| == |attempts| - LoadFailures(attempts)
  {
    if attempts != [] {
      RegisteredCount(attempts[..|attempts| - 1]);
    }
  }

  /** N attempts with K failures leave exactly N - K plugins in `loadedPlugins`. */
  lemma {:induction false} CompletedCount(attempts: seq<Attempt>, awaited: bool)
    ensures |Completed(attempts, awaited)| == |attempts| - Failures(attempts, awaited)
  {
    if attempts != [] {
      CompletedCount(attempts[..|attempts| - 1], awaited);
    }
  }

  /**
   * The registered plugins are exactly the loaded ones together with those
   * whose `initialize` failed: those stay registered but are never loaded.
   */
  lemma {:induction false} RegisteredSplits(attempts: seq<Attempt>, awaited: bool)
    ensures multiset(Registered(attempts)) == multiset(Completed(attempts, awaited)) + multiset(InitFailed(attempts, awaited))
  {
    if attempts != [] {
      RegisteredSplits(attempts[..|attempts| - 1], awaited);
    }
  }

  /** Settling one more attempt extends each record of the pass by that attempt's share. */
  lemma SettleStep(attempts: seq<Attempt>, k: nat, awaited: bool)
    requires k < |attempts|
    ensures var a := attempts[k];
            && Registered(attempts[..k + 1]) == Registered(attempts[..k]) + (if a.Reached? then [a.plugin] else [])
            && Completed(attempts[..k + 1], awaited) == Completed(attempts[..k], awaited) + (if Completes(a, awaited) then [a.plugin] else [])
            && Events(attempts[..k + 1]) == Events(attempts[..k]) + AttemptEvents(a)
  {
    assert attempts[..k + 1][..k] == attempts[..k];
  }

  /** A pass of a single attempt. */
  lemma SingleAttempt(a: Attempt, awaited: bool)
    ensures Registered([a]) == (if a.Reached? then [a.plugin] else [])
    ensures Completed([a], awaited) == (if Completes(a, awaited) then [a.plugin] else [])
    ensures Events([a]) == AttemptEvents(a)
  {
    assert [a][..0] == [];
  }

  lemma {:induction false} EventsAppend(a: seq<Attempt>, b: seq<Attempt>)
    ensures Events(a + b) == Events(a) + Events(b)
    decreases |b|
  {
    if b == [] {
      assert a + b == a;
    } else {
      var b' := b[..|b| - 1];
      assert (a + b)[..|a + b| - 1] == a + b';
      assert (a + b)[|a + b| - 1] == b[|b| - 1];
      EventsAppend(a, b');
    }
  }

  /**
   * A plugin's registration comes before its `initialize` call in the
   * events of a pass, and `initialize` is called with that attempt's
   * argument.
   */
  lemma RegisterBeforeInitialize(attempts: seq<Attempt>, k: nat)
    requires k < |attempts| && attempts[k].Reached? && attempts[k].plugin.hasInitialize
    ensures exists i :: 0 <= i < |Events(attempts)| - 1 &&
              Events(attempts)[i] == Register(attempts[k].plugin.id) &&
              Events(attempts)[i + 1] == Initialize(attempts[k].plugin.id, attempts[k].arg)
  {
    var before, x, after := attempts[..k], attempts[k], attempts[k + 1..];
    assert attempts == (before + [x]) + after;
    EventsAppend(before + [x], after);
    assert (before + [x])[..|before + [x]| - 1] == before;
    assert Events(before + [x]) == Events(before) + AttemptEvents(x);
    assert AttemptEvents(x) == [Register(x.plugin.id), Initialize(x.plugin.id, x.arg)];
    var i := |Events(before)|;
    var es := Events(attempts);
    assert es == Events(before) + AttemptEvents(x) + Events(after);
    assert es[i] == Register(x.plugin.id) && es[i + 1] == Initialize(x.plugin.id, x.arg);
  }

  /** Teardown only ever calls `cleanup` of plugins in the list it is given. */
  lemma {:induction false} TeardownOnlyListed(plugins: seq<Descriptor>, failing: set<string>)
    ensures forall e :: e in TeardownEvents(plugins, failing) ==>
              exists p :: p in plugins && p.hasCleanup && e == Cleanup(p.id)
  {
    if plugins != [] {
      TeardownOnlyListed(plugins[1..], failing);
    }
  }

  /**
   * Teardown makes the `cleanup` calls of the list in order, one per plugin
   * with the hook, stopping early at a throwing one; when none throws it
   * makes all of them.
   */
  lemma {:induction false} TeardownIsPrefix(plugins: seq<Descriptor>, failing: set<string>)
    ensures TeardownEvents(plugins, failing) <= CleanupsOf(plugins)
    ensures (forall p :: p in plugins && p.hasCleanup ==> p.id !in failing) ==>
              TeardownEvents(plugins, failing) == CleanupsOf(plugins)
  {
    if plugins != [] {
      TeardownIsPrefix(plugins[1..], failing);
      assert forall p :: p in plugins[1..] ==> p in plugins;
    }
  }
}
