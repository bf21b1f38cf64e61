/** The reference-equality validator: passes on identity alone, and hints at
    the structural validator when identity fails but structural equality holds. */
module ReferentialEquality {
  import opened Common
  import Expectations

  /** The verdict of the structural-equality engine, reduced to its tag. */
  datatype Verdict = Success | Fail

  datatype ComparisonResult = ComparisonResult(result: Verdict)

  /** The collaborators the validator calls and whose code is not part of this
      model: JavaScript's `Object.is`, the structural engine `smartEq`, and the
      pretty-printer `formatValue`. */
  datatype Runtime<!T> = Runtime(
    objectIs: (T, T) -> bool,
    smartEq: (T, T) -> ComparisonResult,
    formatValue: T -> string)

  const Hint: string := ". Did you mean to use `toEqual` instead?"

  /** The hint is shown iff identity fails but the structural engine succeeds. */
  predicate ShowsHint<T>(rt: Runtime<T>, actual: T, expected: T)
  {
    !rt.objectIs(actual, expected) && rt.smartEq(actual, expected).result == Verdict.Success
  }

  /** `toReferentiallyEqual(control, expected)`: the record it hands to its
      single `control.assert` call. */
  function ToReferentiallyEqual<T>(rt: Runtime<T>, control: Control<T>, expected: T): (r: ValidationResult<T>)
    ensures r.success <==> rt.objectIs(control.actual, expected)
    ensures var plain := rt.formatValue(control.actual) + " is not " + rt.formatValue(expected);
      (r.reason == plain + Hint <==> ShowsHint(rt, control.actual, expected)) &&
      (r.reason == plain <==> !ShowsHint(rt, control.actual, expected))
    ensures r.success ==> r.reason == rt.formatValue(control.actual) + " is not " + rt.formatValue(expected)
    ensures r.negatedReason == rt.formatValue(control.actual) + " is " + rt.formatValue(expected)
    ensures r.actual == Some(control.actual) && r.expected == Some(expected)
  {
    var smartEqComparisonResult := rt.smartEq(control.actual, expected).result == Verdict.Success;
    var strictComparisonResult := rt.objectIs(control.actual, expected);
    var additionalInfo := if !strictComparisonResult && smartEqComparisonResult then Hint else "";
    var reason := rt.formatValue(control.actual) + " is not " + rt.formatValue(expected) + additionalInfo;
    var negatedReason := rt.formatValue(control.actual) + " is " + rt.formatValue(expected);
    ValidationResult(strictComparisonResult, reason, negatedReason, Some(control.actual), Some(expected))
  }

  /** The structural engine only ever affects the hint: two runtimes that
      agree on identity and formatting give the same verdict and the same
      negated reason, whatever their `smartEq`. */
  lemma VerdictIgnoresSmartEq<T>(rt1: Runtime<T>, rt2: Runtime<T>, control: Control<T>, expected: T)
    requires rt1.objectIs == rt2.objectIs && rt1.formatValue == rt2.formatValue
    ensures ToReferentiallyEqual(rt1, control, expected).success == ToReferentiallyEqual(rt2, control, expected).success
    ensures ToReferentiallyEqual(rt1, control, expected).negatedReason == ToReferentiallyEqual(rt2, control, expected).negatedReason
    ensures ToReferentiallyEqual(rt1, control, expected).actual == ToReferentiallyEqual(rt2, control, expected).actual
    ensures ToReferentiallyEqual(rt1, control, expected).expected == ToReferentiallyEqual(rt2, control, expected).expected
  {
  }

  /** The validator run through the expectation's decision: with the flag off
      it throws exactly when identity fails, with the hinted reason; negated,
      it throws exactly when identity holds, with the plain "is" message. */
  lemma ReferenceEqualityOutcome<T>(rt: Runtime<T>, control: Control<T>, expected: T)
    ensures var o := Expectations.Decide(control.isNegated, ToReferentiallyEqual(rt, control, expected));
      var fa, fe := rt.formatValue(control.actual), rt.formatValue(expected);
      (o.Raise? <==> rt.objectIs(control.actual, expected) == control.isNegated) &&
      (o.Raise? && !control.isNegated ==>
         o.message == fa + " is not " + fe + (if ShowsHint(rt, control.actual, expected) then Hint else "")) &&
      (o.Raise? && control.isNegated ==> o.message == fa + " is " + fe)
  {
  }
}
