/**
 * The loader over a hard-coded array of plugin descriptors. Its effect
 * registers the plugins one by one in array order, calling each one's
 * `initialize()` right after registering it. There is no error handling:
 * an `initialize` that throws synchronously ends the loop, and the plugins
 * after it are not registered. Its teardown calls `cleanup` on every array
 * plugin that has one, in array order, loaded or not.
 */
module BasicLoader {
  import opened PluginTypes
  import opened LoadPass
  import BasicRegistry

  /** Whether a plugin's `initialize` call throws, ending the loop. */
  predicate Throws(p: Descriptor, init: InitResult)
  {
    p.hasInitialize && init == InitThrew
  }

  /** How many plugins the loop gets to (the one that throws included). */
  function Reached(plugins: seq<Descriptor>, inits: seq<InitResult>): (n: nat)
    requires |inits| == |plugins|
    ensures n <= |plugins|
  {
    if plugins == [] then 0
    else if Throws(plugins[0], inits[0]) then 1
    else 1 + Reached(plugins[1..], inits[1..])
  }

  /** The `registerPlugin` and `initialize` calls the loop makes, in order. */
  function RunEvents(plugins: seq<Descriptor>, inits: seq<InitResult>): seq<Event>
    requires |inits| == |plugins|
  {
    if plugins == [] then []
    else
      var p := plugins[0];
      [Register(p.id)] + (if p.hasInitialize then [Initialize(p.id, None)] else []) +
      (if Throws(p, inits[0]) then [] else RunEvents(plugins[1..], inits[1..]))
  }

  /**
   * One iteration of the loop: `registerPlugin(p)`, then `p.initialize()`
   * when present. Reports the calls made and whether `initialize` threw.
   */
  method RegisterAndInitialize(reg: BasicRegistry.Registry, p: Descriptor, init: InitResult)
    returns (calls: seq<Event>, threw: bool)
    requires reg.Valid()
    modifies reg
    ensures reg.Valid() && reg.plugins == old(reg.plugins) + [p]
    ensures calls == CallsOf([p]) && (threw <==> Throws(p, init))
  {
    reg.RegisterPlugin(p);
    calls := [Register(p.id)];
    threw := false;
    if p.hasInitialize {
      calls := calls + [Initialize(p.id, None)];
      threw := init == InitThrew;
    }
    assert CallsOf([p]) == calls + CallsOf([]);
  }

  /**
   * The `forEach` loop: registers and initializes the plugins in order
   * until an `initialize` throws. `n` plugins are reached; when one threw,
   * it is the last of them and none before it did.
   */
  method RegisterLoop(reg: BasicRegistry.Registry, plugins: seq<Descriptor>, inits: seq<InitResult>)
    returns (threw: bool, n: nat, events: seq<Event>)
    requires reg.Valid() && |inits| == |plugins|
    modifies reg
    ensures reg.Valid()
    ensures n <= |plugins| && reg.plugins == old(reg.plugins) + plugins[..n] && events == CallsOf(plugins[..n])
    ensures forall j :: 0 <= j < n - 1 ==> !Throws(plugins[j], inits[j])
    ensures threw ==> 0 < n && Throws(plugins[n - 1], inits[n - 1])
    ensures !threw ==> n == |plugins| && (n == 0 || !Throws(plugins[n - 1], inits[n - 1]))
  {
    events := [];
    threw := false;
    n := 0;
    while n < |plugins|
      invariant 0 <= n <= |plugins|
      invariant reg.Valid()
      invariant forall j :: 0 <= j < n ==> !Throws(plugins[j], inits[j])
      invariant reg.plugins == old(reg.plugins) + plugins[..n]
      invariant events == CallsOf(plugins[..n])
    {
      var calls;
      calls, threw := RegisterAndInitialize(reg, plugins[n], inits[n]);
      CallsOfStep(plugins, n);
      AppendAssoc(old(reg.plugins), plugins[..n], [plugins[n]]);
      events := events + calls;
      n := n + 1;
      if threw {
        return;
      }
    }
  }

  /**
   * The effect, where `inits[i]` is how the `initialize` of `plugins[i]`
   * ends. It registers the plugins the loop reaches, makes the calls of
   * `RunEvents`, and reports whether an `initialize` threw out of it. An
   * effect that throws never gets to return its cleanup function, so
   * `hasTeardown` says whether one was returned.
   */
  method Run(reg: BasicRegistry.Registry, plugins: seq<Descriptor>, inits: seq<InitResult>)
    returns (threw: bool, events: seq<Event>, hasTeardown: bool)
    requires reg.Valid() && |inits| == |plugins|
    modifies reg
    ensures reg.Valid()
    ensures reg.plugins == old(reg.plugins) + plugins[..Reached(plugins, inits)]
    ensures events == RunEvents(plugins, inits)
    ensures threw <==> exists i :: 0 <= i < |plugins| && Throws(plugins[i], inits[i])
    ensures hasTeardown <==> !threw
    ensures hasTeardown ==> reg.plugins == old(reg.plugins) + plugins
  {
    var n;
    threw, n, events := RegisterLoop(reg, plugins, inits);
    if threw {
      StopsAtFirstThrow(plugins, inits, n - 1);
    } else {
      assert plugins[..n] == plugins;
      NoThrowRegistersAll(plugins, inits);
    }
    hasTeardown := !threw;
  }

  lemma {:induction false} CallsOfAppend(a: seq<Descriptor>, b: seq<Descriptor>)
    ensures CallsOf(a + b) == CallsOf(a) + CallsOf(b)
  {
    if a == [] {
      assert a + b == b;
    } else {
      assert (a + b)[0] == a[0] && (a + b)[1..] == a[1..] + b;
      CallsOfAppend(a[1..], b);
    }
  }

  /** Registering one more plugin adds its `registerPlugin` and `initialize` calls at the end. */
  lemma CallsOfStep(plugins: seq<Descriptor>, i: nat)
    requires i < |plugins|
    ensures var p := plugins[i];
            && plugins[..i + 1] == plugins[..i] + [p]
            && CallsOf(plugins[..i + 1]) == CallsOf(plugins[..i]) + CallsOf([p])
  {
    var p := plugins[i];
    assert plugins[..i + 1] == plugins[..i] + [p];
    CallsOfAppend(plugins[..i], [p]);
  }

  /**
   * When no `initialize` throws, every array plugin is registered exactly
   * once, in array order, each followed by its `initialize` call.
   */
  lemma {:induction false} NoThrowRegistersAll(plugins: seq<Descriptor>, inits: seq<InitResult>)
    requires |inits| == |plugins|
    requires forall i :: 0 <= i < |plugins| ==> !Throws(plugins[i], inits[i])
    ensures Reached(plugins, inits) == |plugins|
    ensures RunEvents(plugins, inits) == CallsOf(plugins)
  {
    if plugins != [] {
      NoThrowRegistersAll(plugins[1..], inits[1..]);
    }
  }

  /** `registerPlugin` then `initialize` for every plugin, in order. */
  function CallsOf(plugins: seq<Descriptor>): seq<Event>
  {
    if plugins == [] then []
    else
      [Register(plugins[0].id)] + (if plugins[0].hasInitialize then [Initialize(plugins[0].id, None)] else []) +
      CallsOf(plugins[1..])
  }

  /**
   * A throwing `initialize` at index `t` (the first one) ends the loop
   * there: the plugins up to and including `t` are registered, the rest are
   * not.
   */
  lemma {:induction false} StopsAtFirstThrow(plugins: seq<Descriptor>, inits: seq<InitResult>, t: nat)
    requires |inits| == |plugins| && t < |plugins| && Throws(plugins[t], inits[t])
    requires forall j :: 0 <= j < t ==> !Throws(plugins[j], inits[j])
    ensures Reached(plugins, inits) == t + 1
    ensures RunEvents(plugins, inits) == CallsOf(plugins[..t + 1])
  {
    if t == 0 {
      assert plugins[..1] == [plugins[0]];
      assert CallsOf(plugins[..1]) == CallsOf([plugins[0]]);
    } else {
      StopsAtFirstThrow(plugins[1..], inits[1..], t - 1);
      assert plugins[..t + 1][1..] == plugins[1..][..t];
    }
  }

  /**
   * The effect's cleanup function: `cleanup` over the whole array, in array
   * order, stopping at the first `cleanup` that throws. It exists only after
   * a run that returned it (see `TeardownOnlyAfterFullRun`).
   */
  method Teardown(plugins: seq<Descriptor>, failing: set<string>) returns (calls: seq<Event>)
    ensures calls == TeardownEvents(plugins, failing)
    ensures calls <= CleanupsOf(plugins)
    ensures (forall p :: p in plugins && p.hasCleanup ==> p.id !in failing) ==> calls == CleanupsOf(plugins)
  {
    calls := CleanupAll(plugins, failing);
    TeardownIsPrefix(plugins, failing);
  }

  /**
   * The cleanup function exists only after a run in which no `initialize`
   * threw, and then every array plugin was registered: teardown's `cleanup`
   * calls are all of plugins that the run registered.
   */
  lemma TeardownOnlyAfterFullRun(plugins: seq<Descriptor>, inits: seq<InitResult>, failing: set<string>)
    requires |inits| == |plugins|
    requires forall i :: 0 <= i < |plugins| ==> !Throws(plugins[i], inits[i])
    ensures Reached(plugins, inits) == |plugins|
    ensures forall e :: e in TeardownEvents(plugins, failing) ==>
              exists p :: p in plugins[..Reached(plugins, inits)] && p.hasCleanup && e == Cleanup(p.id)
  {
    NoThrowRegistersAll(plugins, inits);
    TeardownOnlyListed(plugins, failing);
    assert plugins[..|plugins|] == plugins;
  }
}
