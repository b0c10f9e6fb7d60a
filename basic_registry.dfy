/**
 * The minimal plugin registry: two lists that `registerPlugin` appends to
 * (the registered descriptors, and the context providers of those that have
 * one), and the children wrapped in those providers. It exposes no removal,
 * so both lists only grow.
 */
module BasicRegistry {
  import opened PluginTypes
  import opened Composition

  class Registry {
    var plugins: seq<Descriptor>
    var providers: seq<ProviderId>

    /** The provider list is the in-order list of the registered plugins' providers. */
    ghost predicate Valid()
      reads this
    {
      providers == ProvidersOf(plugins)
    }

    constructor ()
      ensures Valid() && plugins == [] && providers == []
    {
      plugins := [];
      providers := [];
    }

    /**
     * `registerPlugin`: appends the descriptor, and its ContextProvider when
     * it has one. Never rejects, not even an id that is already registered.
     */
    method RegisterPlugin(p: Descriptor)
      modifies this
      ensures plugins == old(plugins) + [p]
      ensures providers == old(providers) + (if p.provider.Some? then [p.provider.value] else [])
      ensures old(Valid()) ==> Valid()
    {
      ProvidersOfAppend(plugins, [p]);
      assert ProvidersOf([p]) == ProvidersOf([]) + (if p.provider.Some? then [p.provider.value] else []);
      plugins := plugins + [p];
      if p.provider.Some? {
        providers := providers + [p.provider.value];
      }
    }

    /** `wrappedChildren`: the children inside every registered provider, last registered outermost. */
    function WrappedChildren(): (t: Tree)
      reads this
      ensures Layers(t) == Reversed(providers)
      ensures Core(t) == Children
    {
      ComposeLayers(Children, providers);
      Compose(Children, providers)
    }
  }

  /**
   * Registration never rejects: registering a descriptor whose id is
   * already registered adds a second entry with that id.
   */
  lemma DuplicateRegistrationKept(plugins: seq<Descriptor>, p: Descriptor)
    ensures CountId(plugins + [p], p.id) == CountId(plugins, p.id) + 1
    ensures (exists q :: q in plugins && q.id == p.id) ==> CountId(plugins + [p], p.id) >= 2
  {
    CountIdAppend(plugins, [p], p.id);
    assert CountId([p], p.id) == 1 + CountId([], p.id);
  }
}
