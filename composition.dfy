/**
 * Scope composition: the registry wraps its `children` in every registered
 * context provider with a left fold over the provider list, so each provider
 * wraps the tree built from the providers registered before it. The first
 * registered provider therefore ends up innermost, directly around
 * `children`, and the last registered one outermost.
 */
module Composition {
  import opened PluginTypes

  /** The rendered element tree: the registry's `children`, or a provider around a tree. */
  datatype Tree = Children | Wrap(provider: ProviderId, inner: Tree)

  /** `providers.reduce((acc, Provider) => <Provider>{acc}</Provider>, children)` */
  function Compose(children: Tree, providers: seq<ProviderId>): (t: Tree)
    ensures providers != [] ==> t.Wrap? && t.provider == providers[|providers| - 1]
    ensures Core(t) == Core(children)
  {
    if providers == [] then children
    else Wrap(providers[|providers| - 1], Compose(children, providers[..|providers| - 1]))
  }

  /** The providers of a tree, from the outermost layer inwards. */
  function Layers(t: Tree): seq<ProviderId>
  {
    match t
    case Children => []
    case Wrap(p, inner) => [p] + Layers(inner)
  }

  /** The tree left after removing every provider layer. */
  function Core(t: Tree): Tree
  {
    match t
    case Children => Children
    case Wrap(_, inner) => Core(inner)
  }

  function Reversed<T>(s: seq<T>): (r: seq<T>)
    ensures |r| == |s|
    ensures forall k :: 0 <= k < |s| ==> r[k] == s[|s| - 1 - k]
  {
    if s == [] then [] else [s[|s| - 1]] + Reversed(s[..|s| - 1])
  }

  /**
   * Composition adds exactly one layer per provider: read from the outside
   * in, the layers are the providers in reverse registration order, followed
   * by the layers the starting tree already had, and the core is untouched.
   */
  lemma {:induction false} ComposeLayers(children: Tree, providers: seq<ProviderId>)
    ensures Layers(Compose(children, providers)) == Reversed(providers) + Layers(children)
    ensures Core(Compose(children, providers)) == Core(children)
    decreases |providers|
  {
    if providers != [] {
      var n := |providers|;
      ComposeLayers(children, providers[..n - 1]);
      assert Reversed(providers) == [providers[n - 1]] + Reversed(providers[..n - 1]);
    }
  }

  /**
   * The fold is compositional: composing over `ps + qs` is composing over
   * `ps` and then wrapping the result in `qs`. In particular registering one
   * more provider wraps the previous tree in it.
   */
  lemma {:induction false} ComposeAppend(children: Tree, ps: seq<ProviderId>, qs: seq<ProviderId>)
    ensures Compose(children, ps + qs) == Compose(Compose(children, ps), qs)
    decreases |qs|
  {
    if qs == [] {
      assert ps + qs == ps;
    } else {
      var n := |qs|;
      assert (ps + qs)[..|ps + qs| - 1] == ps + qs[..n - 1];
      assert (ps + qs)[|ps + qs| - 1] == qs[n - 1];
      ComposeAppend(children, ps, qs[..n - 1]);
    }
  }

  /**
   * With no providers the result is `children` itself; with providers, the
   * outermost layer is the last registered provider, the innermost layer is
   * the first registered one, and below it is `children`.
   */
  lemma NestingOrder(providers: seq<ProviderId>)
    ensures providers == [] ==> Compose(Children, providers) == Children
    ensures providers != [] ==>
              && Compose(Children, providers).Wrap?
              && Compose(Children, providers).provider == providers[|providers| - 1]
              && |Layers(Compose(Children, providers))| == |providers|
              && Layers(Compose(Children, providers))[|providers| - 1] == providers[0]
              && Core(Compose(Children, providers)) == Children
  {
    ComposeLayers(Children, providers);
  }
}
