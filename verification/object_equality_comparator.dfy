/**
 The comparator that lets PHPUnit's `assertEquals` use `ObjectEquality`. The
 test framework asks `accepts` first and calls `assertEquals` only on pairs it
 accepted; a failed assertion is reported as a comparison failure carrying the
 two values exactly as they were passed.
 */
module ObjectEqualityComparator {
  import opened PhpValue
  import ObjectEquality
  import Values

  const FailureMessage: string := "Failed asserting that two objects are equal."

  datatype ComparisonFailure = ComparisonFailure(expected: Value, actual: Value, message: string)

  datatype Outcome = Pass | Fail(failure: ComparisonFailure)

  /**
   `accepts($expected, $actual)`: the comparator handles a pair exactly when
   the authority `assertEquals` would pick implements `ObjectEquality`.
   */
  predicate Accepts(expected: Value, actual: Value)
    ensures Accepts(expected, actual) <==> ObjectEquality.Implements(SelectAuthority(expected, actual).0)
  {
    ObjectEquality.Implements(expected) || ObjectEquality.Implements(actual)
  }

  /**
   The `$left`/`$right` choice of `assertEquals`: `expected` is the authority
   when it implements `ObjectEquality`, otherwise `actual` is, and the other
   operand becomes the argument. Either way the pair is a rearrangement of the
   two operands.
   */
  function SelectAuthority(expected: Value, actual: Value): (p: (Value, Value))
    ensures multiset{p.0, p.1} == multiset{expected, actual}
    ensures ObjectEquality.Implements(expected) ==> p == (expected, actual)
    ensures !ObjectEquality.Implements(expected) ==> p == (actual, expected)
    ensures ObjectEquality.Implements(expected) || ObjectEquality.Implements(actual) ==>
              ObjectEquality.Implements(p.0)
  {
    if ObjectEquality.Implements(expected) then
      (expected, actual)
    else
      (actual, expected)
  }

  /**
   `assertEquals($expected, $actual)`, for a pair the comparator accepted: it
   passes exactly when the authority's `equals` holds of the argument, and a
   failure carries the original, unswapped operands.
   */
  function AssertEquals(expected: Value, actual: Value): (r: Outcome)
    requires Accepts(expected, actual)
    ensures r.Pass? <==> Values.Equals(expected, actual)
    ensures r.Fail? ==> r.failure == ComparisonFailure(expected, actual, FailureMessage)
  {
    var (left, right) := SelectAuthority(expected, actual);
    assert ObjectEquality.Implements(left);
    if !ObjectEquality.Equals(left, right) then
      Fail(ComparisonFailure(expected, actual, FailureMessage))
    else
      Pass
  }

  /**
   With `ScalarValueObject` the only `ObjectEquality` implementer, swapping
   the operands of an accepted pair does not change the verdict.
   */
  lemma AssertEqualsIgnoresOrder(expected: Value, actual: Value)
    requires Accepts(expected, actual)
    ensures Accepts(actual, expected)
    ensures AssertEquals(expected, actual).Pass? == AssertEquals(actual, expected).Pass?
  {
  }
}
