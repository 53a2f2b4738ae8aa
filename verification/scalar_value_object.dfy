/**
 The `ScalarValueObject` fixture: an immutable holder of one scalar payload and
 the reference implementation of `ObjectEquality`. Its `equals` accepts only
 other `ScalarValueObject`s, and compares their payloads with `===`.
 */
module ScalarValueObject {
  import opened PhpValue

  /** `$self->equals($otherValue)`, where `self` is a `ScalarValueObject`. */
  function Equals(self: Value, otherValue: Value): (r: bool)
    requires self.ScalarObj?
    ensures r <==> otherValue.ScalarObj? && otherValue.scalar == self.scalar
  {
    if otherValue.ScalarObj? then
      PayloadStrictEqualsIffSame(otherValue.scalar, self.scalar);
      StrictEquals(FromScalar(otherValue.scalar), FromScalar(self.scalar))
    else
      false
  }

  /** `===` on two payloads holds exactly when they are the same scalar. */
  lemma PayloadStrictEqualsIffSame(s: Scalar, t: Scalar)
    ensures StrictEquals(FromScalar(s), FromScalar(t)) <==> s == t
  {
  }

  /** Anything that is not a `ScalarValueObject` (null, a raw scalar, another object) is unequal. */
  lemma EqualsRejectsNonInstances(self: Value, otherValue: Value)
    requires self.ScalarObj? && !otherValue.ScalarObj?
    ensures !Equals(self, otherValue)
  {
  }

  /** A raw scalar is unequal even to the object that wraps it. */
  lemma EqualsRejectsWrappedPayload(self: Value)
    requires self.ScalarObj?
    ensures !Equals(self, FromScalar(self.scalar))
  {
  }

  /** Two instances holding the same payload are equal, whatever their handles. */
  lemma EqualsIgnoresIdentity(r1: Ref, r2: Ref, s: Scalar)
    ensures Equals(ScalarObj(r1, s), ScalarObj(r2, s))
  {
  }

  /** Between two `ScalarValueObject`s, `equals` is symmetric. */
  lemma EqualsIsSymmetric(a: Value, b: Value)
    requires a.ScalarObj? && b.ScalarObj?
    ensures Equals(a, b) == Equals(b, a)
  {
  }
}
