/**
 * Type keys, type-object descriptors and the pure half of the checker's
 * descriptor builder: virtual-base aggregation, stub (typeshed) bases and
 * attributes, runtime protocol-member extraction, and the dispatch on the
 * three kinds of key.
 *
 * Everything the checker learns from outside (the typeshed finder, live
 * reflection over runtime classes, `is_typing_name` and the configured
 * base providers) is a function-valued field of `Env`, so each property
 * below holds for every possible collaborator.
 */
module TypeObjects {
  import opened Wrappers

  /** A runtime class object; classes are compared by identity. */
  type ClassId = nat

  /**
   * A `super` proxy object. Proxies define no equality of their own, so two
   * proxies are equal only when they are the same object: a second
   * `super(C, obj)` built separately is a different key.
   */
  type ProxyId = nat

  /** What `make_type_object` is asked about. */
  datatype TypeKey =
    | Concrete(cls: ClassId)                    // a runtime class
    | Synthetic(name: string)                   // a stub-only type, known by name
    | Super(proxy: ProxyId)                     // a `super` proxy, by identity

  /** The descriptor the checker builds and caches for a key. */
  datatype TypeObject = TypeObject(
    typ: TypeKey,
    baseClasses: set<TypeKey>,
    isProtocol: bool,
    protocolMembers: set<string>)

  /** One entry of the typeshed finder's recursive base list; only typed entries name a base. */
  datatype BaseValue = TypedValue(typ: TypeKey) | OtherValue

  /** A virtual-base provider: the extra bases it declares for a key. */
  type Provider = TypeKey -> set<TypeKey>

  /** The queries the checker puts to the typeshed finder. */
  datatype Typeshed = Typeshed(
    isProtocol: TypeKey -> bool,
    getBasesRecursively: TypeKey -> seq<BaseValue>,
    getAllAttributes: TypeKey -> set<string>)

  /** The runtime reflection the checker performs on live classes. */
  datatype Reflection = Reflection(
    objectClass: ClassId,                        // the builtin `object`
    hasProtocolMeta: TypeKey -> bool,            // an instance of typing's `_ProtocolMeta`
    protocolFlag: TypeKey -> bool,               // `_is_protocol`, False when unreadable
    mro: TypeKey -> seq<TypeKey>,
    dictNames: TypeKey -> set<string>,           // the keys of `__dict__`
    annotations: TypeKey -> Option<set<string>>) // `__annotations__`, None when absent

  /** Everything outside the checker that the descriptor builder consults. */
  datatype Env = Env(
    providers: seq<Provider>,
    tsFinder: Typeshed,
    runtime: Reflection,
    isTypingName: (TypeKey, string) -> bool)

  /** Bookkeeping attributes of the protocol machinery, never part of a contract. */
  const ExcludedProtocolMembers: set<string> := {
    "__abstractmethods__", "__annotations__", "__dict__", "__doc__",
    "__init__", "__new__", "__module__", "__parameters__",
    "__subclasshook__", "__weakref__", "_abc_impl", "_abc_cache",
    "_is_protocol", "__next_in_mro__", "_abc_generic_negative_cache_version",
    "__orig_bases__", "__args__", "_abc_registry", "__extra__",
    "_abc_generic_negative_cache", "__origin__", "__tree_hash__", "_gorg",
    "_is_runtime_protocol"
  }

  // ---------------------------------------------------------------------
  // Virtual bases

  /** The union of every provider's answer for `k`, folded in provider order. */
  function AdditionalBases(providers: seq<Provider>, k: TypeKey): (r: set<TypeKey>)
    ensures forall i :: 0 <= i < |providers| ==> providers[i](k) <= r
  {
    if providers == [] then {}
    else AdditionalBases(providers[..|providers| - 1], k) + providers[|providers| - 1](k)
  }

  /** A key is an additional base exactly when some provider names it. */
  lemma {:induction false} AdditionalBasesMembership(providers: seq<Provider>, k: TypeKey, x: TypeKey)
    ensures x in AdditionalBases(providers, k) <==>
            exists i :: 0 <= i < |providers| && x in providers[i](k)
  {
    if providers != [] {
      var n := |providers| - 1;
      var init := providers[..n];
      AdditionalBasesMembership(init, k, x);
      if x in AdditionalBases(init, k) {
        var i :| 0 <= i < |init| && x in init[i](k);
        assert providers[i] == init[i];
      }
      if exists i :: 0 <= i < |providers| && x in providers[i](k) {
        var i :| 0 <= i < |providers| && x in providers[i](k);
        if i < n {
          assert init[i] == providers[i];
        }
      }
    }
  }

  /** With no providers configured there are no additional bases. */
  lemma NoProvidersNoBases(k: TypeKey)
    ensures AdditionalBases([], k) == {}
  {
  }

  /** Configuring a provider a second time adds nothing. */
  lemma {:induction false} DuplicateProviderAddsNothing(providers: seq<Provider>, j: nat, k: TypeKey)
    requires j < |providers|
    ensures AdditionalBases(providers + [providers[j]], k) == AdditionalBases(providers, k)
  {
    var extended := providers + [providers[j]];
    assert extended[..|extended| - 1] == providers;
    forall x | x in providers[j](k)
      ensures x in AdditionalBases(providers, k)
    {
      AdditionalBasesMembership(providers, k, x);
    }
  }

  /** The order in which providers are configured does not matter. */
  lemma {:induction false} ProviderOrderIrrelevant(first: seq<Provider>, second: seq<Provider>, k: TypeKey)
    ensures AdditionalBases(first + second, k) == AdditionalBases(second + first, k)
  {
    forall x
      ensures x in AdditionalBases(first + second, k) <==> x in AdditionalBases(second + first, k)
    {
      AdditionalBasesMembership(first + second, k, x);
      AdditionalBasesMembership(second + first, k, x);
      AdditionalBasesMembership(first, k, x);
      AdditionalBasesMembership(second, k, x);
      if x in AdditionalBases(first, k) {
        var i :| 0 <= i < |first| && x in first[i](k);
        assert (first + second)[i] == first[i] == (second + first)[|second| + i];
      }
      if x in AdditionalBases(second, k) {
        var i :| 0 <= i < |second| && x in second[i](k);
        assert (second + first)[i] == second[i] == (first + second)[|first| + i];
      }
      if exists i :: 0 <= i < |first + second| && x in (first + second)[i](k) {
        var i :| 0 <= i < |first + second| && x in (first + second)[i](k);
        if i < |first| { assert (first + second)[i] == first[i]; }
        else { assert (first + second)[i] == second[i - |first|]; }
      }
      if exists i :: 0 <= i < |second + first| && x in (second + first)[i](k) {
        var i :| 0 <= i < |second + first| && x in (second + first)[i](k);
        if i < |second| { assert (second + first)[i] == second[i]; }
        else { assert (second + first)[i] == first[i - |second|]; }
      }
    }
  }

  // ---------------------------------------------------------------------
  // Stub bases and members

  /** The bases the typeshed finder lists for `k`, keeping only typed entries. */
  function TypeshedBases(env: Env, k: TypeKey): (r: set<TypeKey>)
    ensures forall b :: b in r <==> TypedValue(b) in env.tsFinder.getBasesRecursively(k)
  {
    set v | v in env.tsFinder.getBasesRecursively(k) && v.TypedValue? :: v.typ
  }

  /** Every attribute the stubs give any of `bases`. */
  function ProtocolMembers(env: Env, bases: set<TypeKey>): (r: set<string>)
    ensures forall m :: m in r <==> exists b :: b in bases && m in env.tsFinder.getAllAttributes(b)
  {
    set b, m | b in bases && m in env.tsFinder.getAllAttributes(b) :: m
  }

  // ---------------------------------------------------------------------
  // Runtime protocols

  /** `object`, `Generic` and `Protocol` contribute no members to a protocol. */
  predicate IsProtocolInfrastructure(env: Env, t: TypeKey): (r: bool)
    ensures t == Concrete(env.runtime.objectClass) ==> r
    ensures env.isTypingName(t, "Generic") ==> r
    ensures env.isTypingName(t, "Protocol") ==> r
    ensures r && t != Concrete(env.runtime.objectClass) ==>
              env.isTypingName(t, "Generic") || env.isTypingName(t, "Protocol")
  {
    || t == Concrete(env.runtime.objectClass)
    || env.isTypingName(t, "Generic")
    || env.isTypingName(t, "Protocol")
  }

  /** The annotation names of `t`, none when it has no annotations. */
  function AnnotationNames(env: Env, t: TypeKey): (r: set<string>)
    ensures env.runtime.annotations(t).None? ==> r == {}
    ensures env.runtime.annotations(t).Some? ==> r == env.runtime.annotations(t).value
  {
    env.runtime.annotations(t).GetOr({})
  }

  /**
   * The members one class of a runtime protocol's MRO declares: its own
   * `__dict__` names other than the bookkeeping ones, and its annotation names.
   */
  function ExtractProtocolMembers(env: Env, t: TypeKey): (r: set<string>)
    ensures IsProtocolInfrastructure(env, t) ==> r == {}
    ensures forall m :: m in r <==>
      && !IsProtocolInfrastructure(env, t)
      && ((m in env.runtime.dictNames(t) && m !in ExcludedProtocolMembers) || m in AnnotationNames(env, t))
    ensures forall m :: m in r && m in ExcludedProtocolMembers ==> m in AnnotationNames(env, t)
    ensures r <= env.runtime.dictNames(t) + AnnotationNames(env, t)
  {
    if IsProtocolInfrastructure(env, t) then {}
    else
      var members := env.runtime.dictNames(t) - ExcludedProtocolMembers;
      match env.runtime.annotations(t)
      case Some(names) => members + names
      case None => members
  }

  /** The members of a runtime protocol: those of every class on its MRO. */
  function RuntimeProtocolMembers(env: Env, k: TypeKey): (r: set<string>)
    ensures forall m :: m in r <==>
      exists i :: 0 <= i < |env.runtime.mro(k)| && m in ExtractProtocolMembers(env, env.runtime.mro(k)[i])
  {
    var mro := env.runtime.mro(k);
    var r := set t, m | t in mro && m in ExtractProtocolMembers(env, t) :: m;
    assert forall m :: m in r ==> exists i :: 0 <= i < |mro| && m in ExtractProtocolMembers(env, mro[i]) by {
      forall m | m in r
        ensures exists i :: 0 <= i < |mro| && m in ExtractProtocolMembers(env, mro[i])
      {
        var t :| t in mro && m in ExtractProtocolMembers(env, t);
        var i :| 0 <= i < |mro| && mro[i] == t;
      }
    }
    r
  }

  /** A class counts as a protocol at runtime when typing's metaclass and flag say so. */
  predicate IsRuntimeProtocol(env: Env, k: TypeKey): (r: bool)
    ensures r ==> env.runtime.hasProtocolMeta(k)
    ensures r ==> env.runtime.protocolFlag(k)
    ensures env.runtime.hasProtocolMeta(k) && env.runtime.protocolFlag(k) ==> r
  {
    env.runtime.hasProtocolMeta(k) && env.runtime.protocolFlag(k)
  }

  // ---------------------------------------------------------------------
  // The builder

  /**
   * The descriptor built for `k`. Synthetic keys take their bases and
   * protocol status from the stubs; a `super` proxy has only virtual bases
   * and is never a protocol; a concrete class has its virtual bases and is a
   * protocol by the stubs first, by runtime reflection second.
   */
  function Describe(env: Env, k: TypeKey): (r: TypeObject)
    ensures r.typ == k
    ensures !r.isProtocol ==> r.protocolMembers == {}
  {
    match k
    case Synthetic(_) =>
      var bases := TypeshedBases(env, k);
      var isProtocol := exists b :: b in bases && env.isTypingName(b, "Protocol");
      TypeObject(k, bases, isProtocol, if isProtocol then ProtocolMembers(env, bases) else {})
    case Super(_) =>
      TypeObject(k, AdditionalBases(env.providers, k), false, {})
    case Concrete(_) =>
      var additionalBases := AdditionalBases(env.providers, k);
      if env.tsFinder.isProtocol(k) then
        TypeObject(k, additionalBases, true, ProtocolMembers(env, TypeshedBases(env, k)))
      else if IsRuntimeProtocol(env, k) then
        TypeObject(k, additionalBases, true, RuntimeProtocolMembers(env, k))
      else
        TypeObject(k, additionalBases, false, {})
  }

  // ---------------------------------------------------------------------
  // What the builder promises, key kind by key kind

  /**
   * A synthetic type's bases are exactly the typed entries of its stub
   * bases; it is a protocol exactly when one of them is typing's `Protocol`,
   * and then its members are the stub attributes of its bases. Providers
   * and runtime reflection play no part.
   */
  lemma SyntheticTypeObject(env: Env, name: string, providers: seq<Provider>, runtime: Reflection)
    ensures var k := Synthetic(name);
            var r := Describe(env, k);
            && (forall b :: b in r.baseClasses <==> TypedValue(b) in env.tsFinder.getBasesRecursively(k))
            && (r.isProtocol <==> exists b :: TypedValue(b) in env.tsFinder.getBasesRecursively(k) && env.isTypingName(b, "Protocol"))
            && (forall m :: m in r.protocolMembers <==>
                  r.isProtocol && exists b :: b in r.baseClasses && m in env.tsFinder.getAllAttributes(b))
            && Describe(env.(providers := providers, runtime := runtime), k) == r
  {
  }

  /** A `super` proxy has the virtual bases of the proxy and is never a protocol. */
  lemma SuperTypeObject(env: Env, proxy: ProxyId, x: TypeKey)
    ensures var k := Super(proxy);
            var r := Describe(env, k);
            && (x in r.baseClasses <==> exists i :: 0 <= i < |env.providers| && x in env.providers[i](k))
            && !r.isProtocol
            && r.protocolMembers == {}
  {
    AdditionalBasesMembership(env.providers, Super(proxy), x);
  }

  /**
   * A concrete class the stubs mark as a protocol is a protocol whose members
   * are the stub attributes of its stub bases, whatever runtime reflection
   * says about it; its bases are its virtual bases only.
   */
  lemma StubProtocolTakesPrecedence(env: Env, cls: ClassId, runtime: Reflection)
    requires env.tsFinder.isProtocol(Concrete(cls))
    ensures var k := Concrete(cls);
            var r := Describe(env, k);
            && r.isProtocol
            && r.baseClasses == AdditionalBases(env.providers, k)
            && (forall m :: m in r.protocolMembers <==>
                  exists b :: TypedValue(b) in env.tsFinder.getBasesRecursively(k) && m in env.tsFinder.getAllAttributes(b))
            && Describe(env.(runtime := runtime), k) == r
  {
  }

  /**
   * A concrete class that the stubs do not mark but that is a protocol at
   * runtime has as members those its MRO classes declare, and every one of
   * them is a non-bookkeeping `__dict__` name or an annotation of some class
   * on that MRO.
   */
  lemma RuntimeProtocolTypeObject(env: Env, cls: ClassId, m: string)
    requires !env.tsFinder.isProtocol(Concrete(cls))
    requires IsRuntimeProtocol(env, Concrete(cls))
    ensures var k := Concrete(cls);
            var r := Describe(env, k);
            var mro := env.runtime.mro(k);
            && r.isProtocol
            && r.baseClasses == AdditionalBases(env.providers, k)
            && (m in r.protocolMembers <==> exists i :: 0 <= i < |mro| && m in ExtractProtocolMembers(env, mro[i]))
            && (m in r.protocolMembers ==>
                  exists i :: 0 <= i < |mro| && !IsProtocolInfrastructure(env, mro[i]) &&
                    ((m in env.runtime.dictNames(mro[i]) && m !in ExcludedProtocolMembers) || m in AnnotationNames(env, mro[i])))
  {
  }

  /** A concrete class marked a protocol neither in the stubs nor at runtime is nominal. */
  lemma NominalTypeObject(env: Env, cls: ClassId)
    requires !env.tsFinder.isProtocol(Concrete(cls))
    requires !IsRuntimeProtocol(env, Concrete(cls))
    ensures var r := Describe(env, Concrete(cls));
            && !r.isProtocol
            && r.protocolMembers == {}
            && r.baseClasses == AdditionalBases(env.providers, Concrete(cls))
  {
  }

  /**
   * A runtime protocol each of whose MRO classes is `object`, `Generic` or
   * `Protocol`, or declares only bookkeeping names in its `__dict__` and no
   * annotations, has no members: an empty `class P(Protocol): pass` is an
   * unconstrained protocol.
   */
  lemma InfrastructureOnlyProtocolHasNoMembers(env: Env, cls: ClassId)
    requires !env.tsFinder.isProtocol(Concrete(cls))
    requires IsRuntimeProtocol(env, Concrete(cls))
    requires forall t :: t in env.runtime.mro(Concrete(cls)) ==>
               || IsProtocolInfrastructure(env, t)
               || (env.runtime.dictNames(t) <= ExcludedProtocolMembers && AnnotationNames(env, t) == {})
    ensures Describe(env, Concrete(cls)).isProtocol
    ensures Describe(env, Concrete(cls)).protocolMembers == {}
  {
    var mro := env.runtime.mro(Concrete(cls));
    forall i | 0 <= i < |mro|
      ensures ExtractProtocolMembers(env, mro[i]) == {}
    {
      assert mro[i] in mro;
    }
  }

  /**
   * With one provider that gives class B the virtual base A, B's descriptor
   * has A among its bases; when the stubs mark A as a protocol whose only
   * base declares the attribute `foo`, A is a protocol with exactly that member.
   */
  lemma VirtualBaseAndStubProtocolScenario(env: Env, a: ClassId, b: ClassId)
    requires a != b
    requires |env.providers| == 1
    requires env.providers[0](Concrete(b)) == {Concrete(a)}
    requires env.tsFinder.isProtocol(Concrete(a))
    requires env.tsFinder.getBasesRecursively(Concrete(a)) == [TypedValue(Concrete(a)), OtherValue]
    requires env.tsFinder.getAllAttributes(Concrete(a)) == {"foo"}
    ensures Concrete(a) in Describe(env, Concrete(b)).baseClasses
    ensures Describe(env, Concrete(a)).isProtocol
    ensures Describe(env, Concrete(a)).protocolMembers == {"foo"}
  {
  }
}
