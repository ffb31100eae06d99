# Type objects and compatibility assumptions of pyanalyze's `Checker`

This project models the part of pyanalyze's `Checker` (in `pyanalyze/checker.py`)
that turns a type into a cached `TypeObject` descriptor, and the stack of
compatibility assumptions that breaks cycles in structural compatibility checks.

- `TypeObjects` (`type_objects.dfy`) holds the pure logic. It defines:
  - the three kinds of key: a runtime class, a synthetic (stub-only) type known by name, and a `super` proxy;
  - the `TypeObject` record: its bases, whether it is a protocol, and its protocol members;
  - the union of the virtual-base providers (`AdditionalBases`);
  - the typeshed bases and the protocol members taken from the stubs;
  - runtime protocol-member extraction, with the `EXCLUDED_PROTOCOL_MEMBERS` set;
  - the descriptor builder (`Describe`), with one lemma per kind of key.
- `Compatibility` (`compatibility.dfy`) models the assumption stack as a sequence of ordered pairs.
  It also gives the semantics (`Run`) of a compatibility check made of:
  - queries of the stack;
  - nested assumption scopes;
  - abnormal exits (exceptions).
- `CheckerState` (`checker.dfy`) holds the class `Checker`. Its fields are:
  - the type-object cache, a `map`;
  - the assumption stack, a `seq`;
  - a ghost count of builder runs.

  Its methods are:
  - `GetAdditionalBases`: a loop over the providers;
  - `BuildTypeObject`: the builder;
  - `MakeTypeObject`: the cache;
  - `EnterAssumption`, `ExitAssumption` and `AssumeCompatibility`: the context manager;
  - `RunBody`: the code that runs inside a scope.

  Each method is proved against the pure functions. The invariant `Valid()` says that every cached descriptor is the one the builder gives for its key.
- `Wrappers` (`wrappers.dfy`) holds an `Option` type for reflection reads that may find no attribute.

The checker's collaborators are function-valued fields of `Env`, so every property holds whatever they answer. They are:
- the typeshed finder's `is_protocol`, `get_bases_recursively` and `get_all_attributes`;
- runtime reflection: the `_ProtocolMeta` instance test, the `_is_protocol` flag, `get_mro`, the `__dict__` names, `__annotations__` and the builtin `object`;
- `is_typing_name`;
- the configured providers.

Whether the cache's membership test raises is an oracle over keys, given to the `Checker` when it is constructed.

For a concrete class, `_build_type_object` passes only the additional (virtual) bases to `TypeObject`; the stub bases feed only the protocol members (checker.py:118-127).

A `super` proxy is a key by identity: Python's `super` objects define no equality or hash of their own, so two proxies built separately are two cache entries (`TypeKey.Super` carries only the proxy's identity).

## Model

| member | source | states |
|---|---|---|
| `TypeObjects.AdditionalBases` | pyanalyze/checker.py:86-90 | the union of the providers' answers contains everything each provider returns for `k` |
| `TypeObjects.AdditionalBasesMembership` | pyanalyze/checker.py:86-90 | a key is an additional base of `k` exactly when some configured provider returns it for `k` |
| `TypeObjects.NoProvidersNoBases` | pyanalyze/checker.py:86-90 | with no providers there are no additional bases |
| `TypeObjects.DuplicateProviderAddsNothing` | pyanalyze/checker.py:86-90 | configuring a provider a second time leaves the additional bases unchanged |
| `TypeObjects.ProviderOrderIrrelevant` | pyanalyze/checker.py:86-90 | swapping two groups of providers leaves the additional bases unchanged |
| `CheckerState.Checker.GetAdditionalBases` | pyanalyze/checker.py:86-90 | the loop that unions the providers' answers in order computes `AdditionalBases`, that is, everything some provider returns and nothing else |
| `TypeObjects.TypeshedBases` | pyanalyze/checker.py:144-146 | the typeshed bases are exactly the `.typ` of the `TypedValue` entries of the finder's recursive base list |
| `TypeObjects.ProtocolMembers` | pyanalyze/checker.py:148-153 | a name is a member exactly when the stubs list it as an attribute of one of the bases |
| `TypeObjects.ExtractProtocolMembers` | pyanalyze/checker.py:172-211 | `object`, `Generic` and `Protocol` give no members; otherwise a name is a member exactly when it is a `__dict__` name outside the exclusion set or an annotation name; an excluded name can only come in as an annotation; the result lies within the `__dict__` names and the annotation names |
| `TypeObjects.IsProtocolInfrastructure` | pyanalyze/checker.py:201-205 | holds for the builtin `object` and for whatever `is_typing_name` calls `Generic` or `Protocol`, and for nothing else |
| `TypeObjects.IsRuntimeProtocol` | pyanalyze/checker.py:129-131 | holds exactly when the class is an instance of typing's `_ProtocolMeta` and its `_is_protocol` flag is set |
| `TypeObjects.AnnotationNames` | pyanalyze/checker.py:208-210 | the annotation names of a class, none when it has no `__annotations__` attribute |
| `TypeObjects.RuntimeProtocolMembers` | pyanalyze/checker.py:132-137 | a runtime protocol's members are exactly the names some class on its MRO contributes |
| `TypeObjects.Describe` | pyanalyze/checker.py:103-142 | the descriptor describes the key it was asked for, and a non-protocol has no protocol members |
| `TypeObjects.SyntheticTypeObject` | pyanalyze/checker.py:104-114 | a synthetic type's bases are the typed stub bases; it is a protocol exactly when one of them is typing's `Protocol`; its members are the stub attributes of its bases when it is a protocol and none otherwise; providers and runtime reflection do not affect it |
| `TypeObjects.SuperTypeObject` | pyanalyze/checker.py:115-116 | a `super` proxy's bases are exactly what the providers return for it, and it is never a protocol and has no members |
| `TypeObjects.StubProtocolTakesPrecedence` | pyanalyze/checker.py:117-127 | a class the stubs mark as a protocol is a protocol; its members are the stub attributes of its typeshed bases; its bases are the virtual bases; the descriptor is the same whatever runtime reflection says |
| `TypeObjects.RuntimeProtocolTypeObject` | pyanalyze/checker.py:128-140 | a class not marked in the stubs but a protocol at runtime is a protocol; its members are those its MRO classes declare, each one a non-excluded `__dict__` name or an annotation of a class on its MRO that is not `object`, `Generic` or `Protocol` |
| `TypeObjects.NominalTypeObject` | pyanalyze/checker.py:142 | a class that is a protocol neither in the stubs nor at runtime is not a protocol, has no members, and has only its virtual bases |
| `TypeObjects.InfrastructureOnlyProtocolHasNoMembers` | pyanalyze/checker.py:172-211 | a runtime protocol each of whose MRO classes is `object`, `Generic` or `Protocol`, or has only excluded bookkeeping names in its `__dict__` and no annotations (an empty `class P(Protocol): pass`), has no members |
| `TypeObjects.VirtualBaseAndStubProtocolScenario` | pyanalyze/checker.py:117-127 | a provider giving B the virtual base A makes A a base of B's descriptor; when the stubs mark A as a protocol declaring `foo`, A's members are exactly `{"foo"}` |
| `CheckerState.Checker.BuildTypeObject` | pyanalyze/checker.py:103-142 | the builder, which runs the provider loop, gives `Describe(env, k)` |
| `CheckerState.Checker.constructor` | pyanalyze/checker.py:52-57 | a new checker has an empty cache, an empty assumption stack and a coherent cache |
| `CheckerState.Checker.MakeTypeObject` | pyanalyze/checker.py:92-101 | the result is always the built descriptor for `k`. When the membership test raises, the cache is unchanged and the builder runs once. On a hit, the cached object comes back, the cache is unchanged and the builder does not run. On a miss, the cache gains exactly `k`, mapped to the result. The cache stays coherent |
| `CheckerState.Checker.MakeTypeObjectTwice` | pyanalyze/checker.py:92-101 | two requests for one key give equal descriptors; unless the membership test raises, the builder runs at most once and the cache ends up mapping `k` to that descriptor and nothing else new |
| `Compatibility.IsAssumed` | pyanalyze/checker.py:155-156 | a pair is assumed exactly when that ordered pair is somewhere on the stack; `Checker.CanAssumeCompatibility` applies it to the live stack |
| `CheckerState.Checker.CanAssumeCompatibility` | pyanalyze/checker.py:155-156 | true exactly when the ordered pair (left, right) is somewhere on the checker's live assumption stack |
| `CheckerState.Checker.EnterAssumption` | pyanalyze/checker.py:163-164 | entering a scope appends the pair to the stack, after which it is assumed |
| `CheckerState.Checker.ExitAssumption` | pyanalyze/checker.py:167-169 | leaving a scope pops the top pair. The result reports whether that pair is the one given. Popping an empty stack is reported and changes nothing |
| `CheckerState.Checker.AssumeCompatibility` | pyanalyze/checker.py:158-169 | the scope restores the stack exactly, on normal and abnormal exit alike. The exit outcome it returns is always `Matched`: the pair it pops is the one it pushed. Its body runs with the pair pushed |
| `CheckerState.Checker.RunBody` | pyanalyze/checker.py:155-169 | running queries and nested scopes against the live stack gives the trace `Run` specifies and leaves the stack as it found it |
| `Compatibility.Run` | pyanalyze/checker.py:155-169 | the semantics of nested assumption scopes: a scope pushes its pair for its body and pops it on every exit, a query asks the live stack, an exception ends every enclosing scope; a run with no exception anywhere in it ends normally (the converse of `RaiseAnywhereRaises`) |
| `Compatibility.AssumedQueriesAnswerTrue` | pyanalyze/checker.py:155-169 | when every query asks about a pair that is on the stack or assumed by an enclosing scope, every answer is true |
| `Compatibility.AssumedInsideScope` | pyanalyze/checker.py:155-169 | inside the scope of (l, r), asking about (l, r) answers true |
| `Compatibility.ReverseNotAssumed` | pyanalyze/checker.py:155-169 | inside the scope of (l, r), asking about (r, l) answers false when l and r differ and (r, l) was not assumed before |
| `Compatibility.AssumptionEndsWithScope` | pyanalyze/checker.py:155-169 | after a scope ends normally, a query of its pair sees only what was assumed before the scope |
| `Compatibility.RunAppend` | pyanalyze/checker.py:158-169 | running two groups of steps in sequence: if the first ends abnormally the second never runs and the trace is the first's; otherwise the answers of the second follow those of the first |
| `Compatibility.RaiseAnywhereRaises` | pyanalyze/checker.py:158-169 | an exception at any depth of nested scopes ends the whole run abnormally, every scope it crosses being left |

## Left out

- Option handling and construction plumbing are not part of this model: `__post_init__`, `Options` and the parsing of the `AdditionalBaseProviders` option. The providers are a given sequence of pure functions.
- `ArgSpecCache`, `ImplicitReexportTracker`, `CallableTracker`/`perform_final_checks` and `vnv_map`/`maybe_get_variable_name_value` are not part of this model. They are thin wrappers over modules outside the core.
- `TypeshedFinder` is not part of this model. Its three queries are uninterpreted functions.
- Live reflection is not modelled. This covers `is_instance_of_typing_name`, `safe_getattr`, `get_mro`, `__dict__`, `__annotations__` and `is_typing_name`. Each is an uninterpreted function.
- The `sys.version_info >= (3, 10)` test is folded into the annotations oracle: `None` means the attribute is absent, which cannot happen from 3.10 on.
- `type_object.py` is not part of this model. The `TypeObject` constructor there adds the runtime MRO to the bases, so the model's bases are what the checker passes, not what `TypeObject` finally stores.
- Descriptors are values. "Returns the same object" becomes "returns an equal descriptor", and object identity and aliasing are not modelled.
- Providers are typed `TypeKey -> set<TypeKey>`. The source's providers return runtime classes; the model does not restrict them to `Concrete` keys.
- CheckerState.Checker.MakeTypeObject: whether the membership test raises is a fixed oracle per key. A test that raises on one call and not on another is not modelled.
- Exceptions from providers, the typeshed finder and reflection propagate in the source. They are not modelled; only the swallowed membership-test failure is.
- CheckerState.Checker.ExitAssumption: the `AssertionError` raised on a mismatched pop and the `IndexError` raised on an empty stack are reported as outcomes rather than raised. `AssumeCompatibility` proves neither can happen in a scoped use.
- The body of an assumption scope is modelled only as queries, nested scopes and abnormal exits (`Step`). The structural-compatibility algorithm that runs there is not part of this core.
