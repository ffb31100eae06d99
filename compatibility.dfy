/**
 * The stack of compatibility assumptions the checker keeps while it checks
 * structural compatibility, and what a sequence of nested assumption scopes
 * observes of it. A scope pushes an ordered pair of type objects, runs its
 * body, and pops the pair on every way out, so a recursive check that meets
 * the same pair again can stop instead of looping.
 */
module Compatibility {
  import opened TypeObjects

  /** An ordered (left, right) pair assumed compatible. */
  type Pair = (TypeObject, TypeObject)

  /** Whether (left, right), in that order, is assumed anywhere on the stack. */
  function IsAssumed(stack: seq<Pair>, left: TypeObject, right: TypeObject): (b: bool)
    ensures b <==> exists i :: 0 <= i < |stack| && stack[i] == (left, right)
  {
    (left, right) in stack
  }

  /**
   * What a compatibility check does while assumptions are in force: ask
   * whether a pair is assumed, run a nested scope that assumes a pair, or
   * leave abnormally (an exception), which ends every enclosing scope.
   */
  datatype Step =
    | Query(left: TypeObject, right: TypeObject)
    | Assume(left: TypeObject, right: TypeObject, body: seq<Step>)
    | Raise

  /** The answers the queries got, in order, and whether the run ended abnormally. */
  datatype Trace = Trace(answers: seq<bool>, raised: bool)

  /**
   * The trace of running `steps` with `stack` as the assumptions in force.
   * A run without an abnormal exit in it, at any depth, ends normally.
   */
  function Run(stack: seq<Pair>, steps: seq<Step>): (r: Trace)
    ensures !HasRaise(steps) ==> !r.raised
    decreases steps
  {
    if steps == [] then Trace([], false)
    else match steps[0]
      case Raise => Trace([], true)
      case Query(left, right) =>
        var rest := Run(stack, steps[1..]);
        Trace([IsAssumed(stack, left, right)] + rest.answers, rest.raised)
      case Assume(left, right, body) =>
        var inner := Run(stack + [(left, right)], body);
        if inner.raised then inner
        else
          var rest := Run(stack, steps[1..]);
          Trace(inner.answers + rest.answers, rest.raised)
  }

  /**
   * Every query in `steps`, at any depth, asks about a pair that is on
   * `stack` or is assumed by a scope enclosing the query.
   */
  ghost predicate QueriesAssumed(stack: seq<Pair>, steps: seq<Step>)
    decreases steps
  {
    forall i :: 0 <= i < |steps| ==>
      match steps[i]
      case Query(left, right) => (left, right) in stack
      case Assume(left, right, body) => QueriesAssumed(stack + [(left, right)], body)
      case Raise => true
  }

  /**
   * Cycle breaking: a check that only asks about pairs it is inside the
   * scope of gets "assumed compatible" for every one of them.
   */
  lemma {:induction false} AssumedQueriesAnswerTrue(stack: seq<Pair>, steps: seq<Step>)
    requires QueriesAssumed(stack, steps)
    ensures forall j :: 0 <= j < |Run(stack, steps).answers| ==> Run(stack, steps).answers[j]
    decreases steps
  {
    if steps != [] {
      assert QueriesAssumed(stack, steps[1..]);
      match steps[0]
      case Raise =>
      case Query(left, right) =>
        AssumedQueriesAnswerTrue(stack, steps[1..]);
      case Assume(left, right, body) =>
        assert QueriesAssumed(stack + [(left, right)], body);
        AssumedQueriesAnswerTrue(stack + [(left, right)], body);
        AssumedQueriesAnswerTrue(stack, steps[1..]);
    }
  }

  /** Inside the scope of (left, right), asking about (left, right) answers true. */
  lemma AssumedInsideScope(stack: seq<Pair>, left: TypeObject, right: TypeObject)
    ensures Run(stack, [Assume(left, right, [Query(left, right)])]).answers == [true]
  {
    var inner := stack + [(left, right)];
    assert [Query(left, right)][1..] == [];
    assert Run(inner, [Query(left, right)]) == Trace([true], false);
    assert [Assume(left, right, [Query(left, right)])][1..] == [];
  }

  /** Direction matters: assuming (left, right) does not assume (right, left). */
  lemma ReverseNotAssumed(stack: seq<Pair>, left: TypeObject, right: TypeObject)
    requires left != right
    requires !IsAssumed(stack, right, left)
    ensures Run(stack, [Assume(left, right, [Query(right, left)])]).answers == [false]
  {
    var inner := stack + [(left, right)];
    assert !IsAssumed(inner, right, left);
    assert [Query(right, left)][1..] == [];
    assert Run(inner, [Query(right, left)]) == Trace([false], false);
    assert [Assume(left, right, [Query(right, left)])][1..] == [];
  }

  /**
   * The assumption ends with its scope: a query of the same pair after a
   * scope that ended normally sees only what was assumed before it.
   */
  lemma AssumptionEndsWithScope(stack: seq<Pair>, left: TypeObject, right: TypeObject, body: seq<Step>)
    requires !Run(stack + [(left, right)], body).raised
    ensures Run(stack, [Assume(left, right, body), Query(left, right)]) ==
            Trace(Run(stack + [(left, right)], body).answers + [IsAssumed(stack, left, right)], false)
  {
    var steps := [Assume(left, right, body), Query(left, right)];
    assert steps[1..] == [Query(left, right)];
    assert [Query(left, right)][1..] == [];
    assert Run(stack, [Query(left, right)]) == Trace([IsAssumed(stack, left, right)], false);
  }

  /** Whether an abnormal exit appears among `steps`, at any depth of nesting. */
  ghost predicate HasRaise(steps: seq<Step>)
    decreases steps
  {
    exists i :: 0 <= i < |steps| &&
      match steps[i]
      case Raise => true
      case Query(_, _) => false
      case Assume(_, _, body) => HasRaise(body)
  }

  /**
   * Running one group of steps after another: the second group runs only
   * when the first ends normally, and its answers follow the first's.
   */
  lemma {:induction false} RunAppend(stack: seq<Pair>, steps: seq<Step>, more: seq<Step>)
    ensures Run(stack, steps + more) ==
            if Run(stack, steps).raised then Run(stack, steps)
            else Trace(Run(stack, steps).answers + Run(stack, more).answers, Run(stack, more).raised)
    decreases steps
  {
    if steps == [] {
      assert steps + more == more;
    } else {
      assert (steps + more)[0] == steps[0];
      assert (steps + more)[1..] == steps[1..] + more;
      RunAppend(stack, steps[1..], more);
    }
  }

  /**
   * An abnormal exit anywhere, however deeply nested, ends the whole run
   * abnormally: every scope it passes through is left, and no step after
   * it runs.
   */
  lemma {:induction false} RaiseAnywhereRaises(stack: seq<Pair>, steps: seq<Step>)
    requires HasRaise(steps)
    ensures Run(stack, steps).raised
    decreases steps
  {
    var i :| 0 <= i < |steps| &&
      match steps[i]
      case Raise => true
      case Query(_, _) => false
      case Assume(_, _, body) => HasRaise(body);
    if i > 0 {
      assert steps[1..][i - 1] == steps[i];
      assert HasRaise(steps[1..]);
    }
    match steps[0]
    case Raise =>
    case Query(_, _) =>
      RaiseAnywhereRaises(stack, steps[1..]);
    case Assume(left, right, body) =>
      if i == 0 {
        RaiseAnywhereRaises(stack + [(left, right)], body);
      } else if !Run(stack + [(left, right)], body).raised {
        RaiseAnywhereRaises(stack, steps[1..]);
      }
  }
}
