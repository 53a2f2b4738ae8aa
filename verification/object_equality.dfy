/**
 The `ObjectEquality` interface: a value that implements it decides for itself
 whether it equals any other value. In this universe `ScalarValueObject` is the
 one class that implements it, so calling `equals` on an implementer dispatches
 to that class's method.
 */
module ObjectEquality {
  import opened PhpValue
  import ScalarValueObject

  /** `$v instanceof ObjectEquality`. */
  predicate Implements(v: Value) {
    v.ScalarObj?
  }

  /**
   `$self->equals($otherValue)` on an implementer. The interface promises a
   total answer, true for the receiver itself, and true only when the other
   value is of the receiver's own class.
   */
  function Equals(self: Value, otherValue: Value): (r: bool)
    requires Implements(self)
    ensures r ==> KindOf(otherValue) == KindOf(self)
    ensures otherValue == self ==> r
    ensures otherValue.Null? ==> !r
  {
    match self
    case ScalarObj(_, _) => ScalarValueObject.Equals(self, otherValue)
  }
}
