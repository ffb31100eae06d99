/**
 * The checker's state that outlives a single module: the type-object cache
 * and the stack of compatibility assumptions, with the operations that
 * update them in place.
 */
module CheckerState {
  import opened TypeObjects
  import opened Compatibility

  /** How popping the assumption stack at the end of a scope went. */
  datatype ExitOutcome =
    | Matched      // the popped pair is the one the scope pushed
    | Mismatched   // the popped pair is another one: the consistency assertion fails
    | EmptyStack   // nothing to pop: `pop` itself fails

  class Checker {
    /** The collaborators: providers, typeshed finder, runtime reflection. */
    const env: Env
    /** Whether testing `k in cache` raises (an unhashable or ill-behaved key). */
    const membershipRaises: TypeKey -> bool

    var typeObjectCache: map<TypeKey, TypeObject>
    var assumedCompatibilities: seq<Pair>
    /** How many times a descriptor has been built. */
    ghost var buildCount: nat

    /** Every cached descriptor is the one the builder gives for its key. */
    ghost predicate Valid()
      reads this
    {
      forall k :: k in typeObjectCache ==> typeObjectCache[k] == Describe(env, k)
    }

    constructor (env: Env, membershipRaises: TypeKey -> bool)
      ensures Valid()
      ensures this.env == env && this.membershipRaises == membershipRaises
      ensures typeObjectCache == map[] && assumedCompatibilities == [] && buildCount == 0
    {
      this.env := env;
      this.membershipRaises := membershipRaises;
      typeObjectCache := map[];
      assumedCompatibilities := [];
      buildCount := 0;
    }

    /** The union of what every configured provider says about `k`. */
    method GetAdditionalBases(k: TypeKey) returns (bases: set<TypeKey>)
      ensures bases == AdditionalBases(env.providers, k)
      ensures forall x :: x in bases <==> exists i :: 0 <= i < |env.providers| && x in env.providers[i](k)
    {
      var providers := env.providers;
      bases := {};
      var i := 0;
      while i < |providers|
        invariant 0 <= i <= |providers|
        invariant bases == AdditionalBases(providers[..i], k)
      {
        assert providers[..i + 1][..i] == providers[..i];
        bases := bases + providers[i](k);
        i := i + 1;
      }
      assert providers[..i] == providers;
      forall x
        ensures x in bases <==> exists j :: 0 <= j < |providers| && x in providers[j](k)
      {
        AdditionalBasesMembership(providers, k, x);
      }
    }

    /** Builds the descriptor for `k`, dispatching on the kind of key. */
    method BuildTypeObject(k: TypeKey) returns (t: TypeObject)
      ensures t == Describe(env, k)
    {
      match k
      case Synthetic(_) =>
        var bases := TypeshedBases(env, k);
        var isProtocol := exists b :: b in bases && env.isTypingName(b, "Protocol");
        var members := if isProtocol then ProtocolMembers(env, bases) else {};
        t := TypeObject(k, bases, isProtocol, members);
      case Super(_) =>
        var bases := GetAdditionalBases(k);
        t := TypeObject(k, bases, false, {});
      case Concrete(_) =>
        var additionalBases := GetAdditionalBases(k);
        if env.tsFinder.isProtocol(k) {
          var bases := TypeshedBases(env, k);
          t := TypeObject(k, additionalBases, true, ProtocolMembers(env, bases));
        } else if IsRuntimeProtocol(env, k) {
          t := TypeObject(k, additionalBases, true, RuntimeProtocolMembers(env, k));
        } else {
          t := TypeObject(k, additionalBases, false, {});
        }
    }

    /**
     * The cached descriptor for `k`, built and cached on a miss. When the
     * membership test raises, the descriptor is built afresh and the cache
     * is left alone.
     */
    method MakeTypeObject(k: TypeKey) returns (t: TypeObject)
      requires Valid()
      modifies this`typeObjectCache, this`buildCount
      ensures Valid()
      ensures t == Describe(env, k)
      ensures membershipRaises(k) ==>
                typeObjectCache == old(typeObjectCache) && buildCount == old(buildCount) + 1
      ensures !membershipRaises(k) ==> k in typeObjectCache && typeObjectCache[k] == t
      ensures !membershipRaises(k) && k in old(typeObjectCache) ==>
                t == old(typeObjectCache)[k] &&
                typeObjectCache == old(typeObjectCache) && buildCount == old(buildCount)
      ensures !membershipRaises(k) && k !in old(typeObjectCache) ==>
                typeObjectCache == old(typeObjectCache)[k := t] && buildCount == old(buildCount) + 1
    {
      if membershipRaises(k) {
        t := BuildTypeObject(k);
        buildCount := buildCount + 1;
        return;
      }
      if k in typeObjectCache {
        t := typeObjectCache[k];
        return;
      }
      t := BuildTypeObject(k);
      buildCount := buildCount + 1;
      typeObjectCache := typeObjectCache[k := t];
    }

    /**
     * Two requests for the same key in a row give the same descriptor, and
     * unless the membership test raises, the builder runs at most once.
     */
    method MakeTypeObjectTwice(k: TypeKey) returns (first: TypeObject, second: TypeObject)
      requires Valid()
      modifies this`typeObjectCache, this`buildCount
      ensures Valid()
      ensures first == second == Describe(env, k)
      ensures !membershipRaises(k) ==> buildCount <= old(buildCount) + 1
      ensures !membershipRaises(k) ==> typeObjectCache == old(typeObjectCache)[k := first]
    {
      first := MakeTypeObject(k);
      second := MakeTypeObject(k);
    }

    /** Whether (left, right) is currently assumed compatible. */
    function CanAssumeCompatibility(left: TypeObject, right: TypeObject): (b: bool)
      reads this
      ensures b <==> exists i :: 0 <= i < |assumedCompatibilities| && assumedCompatibilities[i] == (left, right)
    {
      IsAssumed(assumedCompatibilities, left, right)
    }

    /** Entering an assumption scope pushes the pair. */
    method EnterAssumption(left: TypeObject, right: TypeObject)
      modifies this`assumedCompatibilities
      ensures assumedCompatibilities == old(assumedCompatibilities) + [(left, right)]
      ensures CanAssumeCompatibility(left, right)
    {
      assumedCompatibilities := assumedCompatibilities + [(left, right)];
    }

    /**
     * Leaving an assumption scope pops the top pair (when there is one) and
     * reports whether it is the pair the scope pushed.
     */
    method ExitAssumption(left: TypeObject, right: TypeObject) returns (outcome: ExitOutcome)
      modifies this`assumedCompatibilities
      ensures old(assumedCompatibilities) == [] ==>
                outcome == EmptyStack && assumedCompatibilities == []
      ensures old(assumedCompatibilities) != [] ==>
                && old(assumedCompatibilities) == assumedCompatibilities + [old(assumedCompatibilities)[|old(assumedCompatibilities)| - 1]]
                && (outcome == Matched <==> old(assumedCompatibilities)[|old(assumedCompatibilities)| - 1] == (left, right))
                && (outcome != Matched ==> outcome == Mismatched)
    {
      if assumedCompatibilities == [] {
        outcome := EmptyStack;
        return;
      }
      var n := |assumedCompatibilities| - 1;
      var popped := assumedCompatibilities[n];
      assumedCompatibilities := assumedCompatibilities[..n];
      outcome := if popped == (left, right) then Matched else Mismatched;
    }

    /**
     * The assumption scope: push (left, right), run the body, and pop on
     * every way out, normal or abnormal. The popped pair is always the pushed
     * one and the stack is exactly restored.
     */
    method AssumeCompatibility(left: TypeObject, right: TypeObject, body: seq<Step>)
      returns (trace: Trace, outcome: ExitOutcome)
      modifies this`assumedCompatibilities
      ensures outcome == Matched
      ensures assumedCompatibilities == old(assumedCompatibilities)
      ensures trace == Run(old(assumedCompatibilities) + [(left, right)], body)
      decreases body, 1
    {
      ghost var before := assumedCompatibilities;
      EnterAssumption(left, right);
      trace := RunBody(body);
      outcome := ExitAssumption(left, right);
      assert assumedCompatibilities == (before + [(left, right)])[..|before|] == before;
    }

    /** Runs the steps of a compatibility check against the live assumption stack. */
    method RunBody(steps: seq<Step>) returns (trace: Trace)
      modifies this`assumedCompatibilities
      ensures assumedCompatibilities == old(assumedCompatibilities)
      ensures trace == Run(old(assumedCompatibilities), steps)
      decreases steps, 0
    {
      if steps == [] {
        return Trace([], false);
      }
      match steps[0]
      case Raise =>
        trace := Trace([], true);
      case Query(left, right) =>
        var answer := CanAssumeCompatibility(left, right);
        var rest := RunBody(steps[1..]);
        trace := Trace([answer] + rest.answers, rest.raised);
      case Assume(left, right, body) =>
        var inner, _ := AssumeCompatibility(left, right, body);
        if inner.raised {
          trace := inner;
        } else {
          var rest := RunBody(steps[1..]);
          trace := Trace(inner.answers + rest.answers, rest.raised);
        }
    }
  }
}
