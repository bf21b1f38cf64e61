/** The negation-aware expectation: an object holding the value under test and
    a negation flag that may be switched on once, plus the rule that turns a
    validator's verdict into a silent return or a thrown assertion failure. */
module Expectations {
  import opened Common

  /** What one expectation call ends in: it returns, or it throws an Error
      carrying `message`. */
  datatype Outcome = Ok | Raise(message: string)

  const DoubleNegationMessage: string := "Tried negating already negated expectation"

  /** The fields a validator may read through `this` (src/Expectation.ts:7-11). */
  datatype InternalExpectation<A, T> = InternalExpectation(autofix: A, actual: T, isNegated: bool)

  /** The decision `satisfy` takes once the validator has produced `result`:
      an expectation raises exactly when the verdict agrees with the negation
      flag, with the reason that belongs to that side. */
  function Decide<T>(isNegated: bool, result: ValidationResult<T>): (o: Outcome)
    ensures o.Raise? <==> result.success == isNegated
    ensures !isNegated ==> (o == Ok <==> result.success)
    ensures !isNegated && !result.success ==> o == Raise(result.reason)
    ensures isNegated ==> (o == Ok <==> !result.success)
    ensures isNegated && result.success ==> o == Raise(result.negatedReason)
  {
    if isNegated then
      if result.success then Raise(result.negatedReason) else Ok
    else
      if !result.success then Raise(result.reason) else Ok
  }

  /** Negation exactly complements the pass/fail decision for every verdict. */
  lemma NegationFlipsOutcome<T>(result: ValidationResult<T>)
    ensures Decide(true, result).Raise? <==> !Decide(false, result).Raise?
    ensures Decide(false, result).Raise? ==> Decide(false, result).message == result.reason
    ensures Decide(true, result).Raise? ==> Decide(true, result).message == result.negatedReason
  {
  }

  class Expectation<A, T> {
    const autofix: A
    const actual: T
    var isNegated: bool

    constructor (autofix: A, actual: T, isNegated: bool := false)
      ensures this.autofix == autofix && this.actual == actual
      ensures this.isNegated == isNegated
    {
      this.autofix := autofix;
      this.actual := actual;
      this.isNegated := isNegated;
    }

    /** The view a validator receives when applied with this expectation as `this`. */
    function View(): (v: InternalExpectation<A, T>)
      reads this
      ensures v.autofix == autofix && v.actual == actual && v.isNegated == isNegated
    {
      InternalExpectation(autofix, actual, isNegated)
    }

    /** The `not` getter: switches the flag on and returns this object, or
        throws if the flag is already on. Either way the flag ends up on. */
    method Not() returns (r: Result<Expectation<A, T>>)
      modifies this`isNegated
      ensures isNegated
      ensures !old(isNegated) ==> r == Success(this)
      ensures old(isNegated) ==> r == Failure(DoubleNegationMessage)
    {
      if isNegated {
        return Failure(DoubleNegationMessage);
      }
      isNegated := true;
      r := Success(this);
    }

    /** The function `satisfy(validator)` installs on the expectation, called
        with `args`: the validator runs once on this expectation and the
        caller's arguments, then its verdict is decided against the flag.
        Nothing in the expectation changes. */
    method Satisfy<Args>(validator: (InternalExpectation<A, T>, Args) -> ValidationResult<T>, args: Args)
      returns (o: Outcome)
      ensures var result := validator(InternalExpectation(autofix, actual, isNegated), args);
        (o.Raise? <==> result.success == isNegated) &&
        (o.Raise? ==> o.message == if isNegated then result.negatedReason else result.reason)
    {
      var result := validator(View(), args);
      o := Decide(isNegated, result);
    }
  }

  /** A fresh expectation negated twice: the first `not` hands back the same
      object, the second throws, and the flag stays on throughout. */
  method NegateTwice<A, T>(autofix: A, actual: T) returns (e: Expectation<A, T>, first: Result<Expectation<A, T>>, second: Result<Expectation<A, T>>)
    ensures fresh(e)
    ensures e.autofix == autofix && e.actual == actual && e.isNegated
    ensures first == Success(e)
    ensures second == Failure(DoubleNegationMessage)
  {
    e := new Expectation(autofix, actual);
    assert !e.isNegated;
    first := e.Not();
    second := e.Not();
  }
}
