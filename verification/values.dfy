/**
 The `Values` helper: the equality dispatch `equals`, the membership scan
 `containsValue`, and its four public wrappers.
 */
module Values {
  import opened PhpValue
  import ObjectEquality

  /**
   `Values::equals($value, $otherValue)`. First match wins: the left operand's
   own `equals`, then the right operand's, then comparison by instant for two
   `DateTimeImmutable`s or two `DateTime`s, and `===` for everything else.
   */
  predicate Equals(value: Value, otherValue: Value) {
    if ObjectEquality.Implements(value) then
      ObjectEquality.Equals(value, otherValue)
    else if ObjectEquality.Implements(otherValue) then
      ObjectEquality.Equals(otherValue, value)
    else if value.DTI? && otherValue.DTI? then
      value.instant == otherValue.instant
    else if value.DT? && otherValue.DT? then
      value.instant == otherValue.instant
    else
      StrictEquals(value, otherValue)
  }

  /** A left operand implementing `ObjectEquality` decides alone, whatever the other operand is. */
  lemma LeftAuthorityDecides(value: Value, otherValue: Value)
    requires ObjectEquality.Implements(value)
    ensures Equals(value, otherValue) == ObjectEquality.Equals(value, otherValue)
  {
  }

  /** Otherwise a right operand implementing `ObjectEquality` decides, with the left operand as argument. */
  lemma RightAuthorityDecides(value: Value, otherValue: Value)
    requires !ObjectEquality.Implements(value) && ObjectEquality.Implements(otherValue)
    ensures Equals(value, otherValue) == ObjectEquality.Equals(otherValue, value)
  {
  }

  /** Two `DateTime`s, or two `DateTimeImmutable`s, are equal exactly when they represent the same instant. */
  lemma DateTimesCompareByInstant(value: Value, otherValue: Value)
    requires (value.DT? && otherValue.DT?) || (value.DTI? && otherValue.DTI?)
    ensures Equals(value, otherValue) <==> value.instant == otherValue.instant
  {
  }

  /** A `DateTime` and a `DateTimeImmutable` are never equal, even at the same instant. */
  lemma MixedDateTimesNeverEqual(value: Value, otherValue: Value)
    requires (value.DT? && otherValue.DTI?) || (value.DTI? && otherValue.DT?)
    ensures !Equals(value, otherValue)
  {
  }

  /** With no authority and no date-time pair of one class, `equals` is `===`. */
  lemma FallsBackToStrict(value: Value, otherValue: Value)
    requires !ObjectEquality.Implements(value) && !ObjectEquality.Implements(otherValue)
    requires !(value.DT? && otherValue.DT?) && !(value.DTI? && otherValue.DTI?)
    ensures Equals(value, otherValue) == StrictEquals(value, otherValue)
  {
  }

  /**
   What decides equality for a value: its payload for a `ScalarValueObject`,
   its instant and class for a date-time, its `===` identity otherwise.
   */
  datatype EqualityClass =
    | ByPayload(payload: Scalar)
    | ByInstant(immutable: bool, instant: int)
    | ByIdentity(identity: Identity)

  function EqualityClassOf(v: Value): EqualityClass {
    match v
    case ScalarObj(_, s) => ByPayload(s)
    case DT(_, t) => ByInstant(false, t)
    case DTI(_, t) => ByInstant(true, t)
    case _ => ByIdentity(IdentityOf(v))
  }

  /**
   An independent description of the dispatch: two values are equal exactly
   when they fall in the same equality class.
   */
  lemma EqualsIffSameEqualityClass(value: Value, otherValue: Value)
    ensures Equals(value, otherValue) <==> EqualityClassOf(value) == EqualityClassOf(otherValue)
  {
    if !value.ScalarObj? && !value.DT? && !value.DTI? &&
       !otherValue.ScalarObj? && !otherValue.DT? && !otherValue.DTI? {
      StrictEqualsIffSameIdentity(value, otherValue);
    }
  }

  /** With `ScalarValueObject` the only implementer, `equals` is an equivalence relation. */
  lemma EqualsIsEquivalence(a: Value, b: Value, c: Value)
    ensures Equals(a, a)
    ensures Equals(a, b) ==> Equals(b, a)
    ensures Equals(a, b) && Equals(b, c) ==> Equals(a, c)
  {
    EqualsIffSameEqualityClass(a, a);
    EqualsIffSameEqualityClass(a, b);
    EqualsIffSameEqualityClass(b, a);
    EqualsIffSameEqualityClass(b, c);
    EqualsIffSameEqualityClass(a, c);
  }

  /** No coercion: equal values are always of the same PHP type (so `1` is not `"1"`). */
  lemma EqualsKeepsKind(value: Value, otherValue: Value)
    requires Equals(value, otherValue)
    ensures KindOf(value) == KindOf(otherValue)
  {
  }

  /**
   A value object, a `DateTime` or a `DateTimeImmutable` is one instance with
   one state, so two values of one class with one handle carry the same state.
   */
  predicate OneStatePerInstance(value: Value, otherValue: Value) {
    (value.DT? || value.DTI? || value.ScalarObj?) &&
    KindOf(value) == KindOf(otherValue) && value.ref == otherValue.ref
    ==> value == otherValue
  }

  /** For values that respect one state per instance, `===` implies `equals`. */
  lemma StrictEqualsImpliesEquals(value: Value, otherValue: Value)
    requires OneStatePerInstance(value, otherValue)
    requires StrictEquals(value, otherValue)
    ensures Equals(value, otherValue)
  {
  }

  /** Without one state per instance, `===` (same handle) and `equals` (same instant) part ways. */
  lemma OneStatePerInstanceIsNeeded()
    ensures !OneStatePerInstance(DT(1, 0), DT(1, 5))
    ensures StrictEquals(DT(1, 0), DT(1, 5)) && !Equals(DT(1, 0), DT(1, 5))
  {
  }

  /** Only null equals null, including when the other side implements `ObjectEquality`. */
  lemma OnlyNullEqualsNull(value: Value)
    ensures Equals(value, Null) <==> value.Null?
    ensures Equals(Null, value) <==> value.Null?
  {
  }

  /** True when some element of `otherValues` equals `value`. */
  ghost predicate EqualsSome(value: Value, otherValues: seq<Value>) {
    exists i :: 0 <= i < |otherValues| && Equals(value, otherValues[i])
  }

  /**
   `containsValue($value, $otherValues, $onMatch)`: scan left to right, answer
   `onMatch` at the first match and `!onMatch` when none matches.
   */
  function ContainsValue(value: Value, otherValues: seq<Value>, onMatch: bool): (r: bool)
    ensures r <==> (onMatch <==> EqualsSome(value, otherValues))
    decreases |otherValues|
  {
    if |otherValues| == 0 then
      !onMatch
    else if Equals(value, otherValues[0]) then
      onMatch
    else
      var r := ContainsValue(value, otherValues[1..], onMatch);
      assert EqualsSome(value, otherValues[1..]) <==> EqualsSome(value, otherValues) by {
        if EqualsSome(value, otherValues) {
          var i :| 0 <= i < |otherValues| && Equals(value, otherValues[i]);
          assert otherValues[1..][i - 1] == otherValues[i];
        }
        if EqualsSome(value, otherValues[1..]) {
          var i :| 0 <= i < |otherValues[1..]| && Equals(value, otherValues[1..][i]);
          assert otherValues[i + 1] == otherValues[1..][i];
        }
      }
      r
  }

  /** The position of the first element equal to `value`, or `|otherValues|` when there is none. */
  function FirstMatch(value: Value, otherValues: seq<Value>): (k: nat)
    ensures k <= |otherValues|
    ensures forall j :: 0 <= j < k ==> !Equals(value, otherValues[j])
    ensures k < |otherValues| ==> Equals(value, otherValues[k])
    decreases |otherValues|
  {
    if |otherValues| == 0 then
      0
    else if Equals(value, otherValues[0]) then
      0
    else
      var k := FirstMatch(value, otherValues[1..]);
      assert forall j :: 1 <= j < k + 1 ==> otherValues[j] == otherValues[1..][j - 1];
      k + 1
  }

  /**
   The `foreach` loop of `containsValue`. Besides the answer it reports
   `calls`, counted at each call of `equals`: the early return means that it
   never looks past the first match.
   */
  method ContainsValueScan(value: Value, otherValues: seq<Value>, onMatch: bool)
    returns (r: bool, calls: nat)
    ensures r == ContainsValue(value, otherValues, onMatch)
    ensures calls == if FirstMatch(value, otherValues) < |otherValues|
                     then FirstMatch(value, otherValues) + 1
                     else |otherValues|
  {
    calls := 0;
    var i := 0;
    while i < |otherValues|
      invariant 0 <= i <= |otherValues|
      invariant calls == i
      invariant forall j :: 0 <= j < i ==> !Equals(value, otherValues[j])
    {
      calls := calls + 1;
      if Equals(value, otherValues[i]) {
        return onMatch, calls;
      }
      i := i + 1;
    }
    return !onMatch, calls;
  }

  /** `Values::equalsOneIn($value, $otherValues)`. */
  function EqualsOneIn(value: Value, otherValues: seq<Value>): (r: bool)
    ensures r <==> exists i :: 0 <= i < |otherValues| && Equals(value, otherValues[i])
  {
    ContainsValue(value, otherValues, true)
  }

  /** `Values::equalsNoneIn($value, $otherValues)`: the exact negation of `equalsOneIn`. */
  function EqualsNoneIn(value: Value, otherValues: seq<Value>): (r: bool)
    ensures r <==> forall i :: 0 <= i < |otherValues| ==> !Equals(value, otherValues[i])
    ensures r == !EqualsOneIn(value, otherValues)
  {
    ContainsValue(value, otherValues, false)
  }

  /**
   `Values::equalsOneOf($value, ...$otherValues)`, the variadic spelling of
   `equalsOneIn`: true when the value equals one or more of the arguments.
   */
  function EqualsOneOf(value: Value, otherValues: seq<Value>): (r: bool)
    ensures r <==> exists i :: 0 <= i < |otherValues| && Equals(value, otherValues[i])
  {
    EqualsOneIn(value, otherValues)
  }

  /**
   `Values::equalsNoneOf($value, ...$otherValues)`, the variadic spelling of
   `equalsNoneIn`: true when the value equals none of the arguments.
   */
  function EqualsNoneOf(value: Value, otherValues: seq<Value>): (r: bool)
    ensures r <==> forall i :: 0 <= i < |otherValues| ==> !Equals(value, otherValues[i])
  {
    EqualsNoneIn(value, otherValues)
  }

  /** Nothing is in the empty list. */
  lemma EmptyListHoldsNothing(value: Value)
    ensures !EqualsOneIn(value, []) && EqualsNoneIn(value, [])
  {
  }

  /** Searching a concatenation is searching either part. */
  lemma EqualsOneInConcat(value: Value, xs: seq<Value>, ys: seq<Value>)
    ensures EqualsOneIn(value, xs + ys) <==> EqualsOneIn(value, xs) || EqualsOneIn(value, ys)
  {
    if EqualsOneIn(value, xs + ys) {
      var i :| 0 <= i < |xs + ys| && Equals(value, (xs + ys)[i]);
      if i >= |xs| {
        assert (xs + ys)[i] == ys[i - |xs|];
      }
    }
    if EqualsOneIn(value, xs) {
      var i :| 0 <= i < |xs| && Equals(value, xs[i]);
      assert (xs + ys)[i] == xs[i];
    }
    if EqualsOneIn(value, ys) {
      var i :| 0 <= i < |ys| && Equals(value, ys[i]);
      assert (xs + ys)[|xs| + i] == ys[i];
    }
  }

  /**
   With `ScalarValueObject` the only `ObjectEquality` implementer, membership
   depends on `value` only up to `equals`.
   */
  lemma EqualsOneInRespectsEquals(value: Value, same: Value, otherValues: seq<Value>)
    requires Equals(value, same)
    ensures EqualsOneIn(value, otherValues) == EqualsOneIn(same, otherValues)
  {
    forall i | 0 <= i < |otherValues|
      ensures Equals(value, otherValues[i]) == Equals(same, otherValues[i])
    {
      EqualsIsEquivalence(value, same, otherValues[i]);
      EqualsIsEquivalence(same, value, otherValues[i]);
    }
  }

  /** The mixed list of the unit tests: `3` is in it, `"foo"` is not. */
  lemma MixedListExample()
    ensures var list := [Int(1), Int(2), Str("bar"), Int(3), Int(4), Str("baz"), Null, Obj(0)];
            EqualsOneOf(Int(3), list) && !EqualsOneOf(Str("foo"), list) && EqualsNoneOf(Str("foo"), list)
  {
  }

  /** The value-object list of the unit tests: `'foo'` is in it through a different instance, `'foobar'` is not. */
  lemma ValueObjectListExample()
    ensures var list := [ScalarObj(1, StringScalar("bar")), ScalarObj(2, StringScalar("foo")), ScalarObj(3, StringScalar("baz"))];
            EqualsOneIn(ScalarObj(0, StringScalar("foo")), list) &&
            EqualsNoneIn(ScalarObj(4, StringScalar("foobar")), list)
  {
  }

  /**
   A list is not an `ObjectEquality`, so two lists are compared with `===`,
   which compares the value objects inside them by instance: lists holding
   distinct but equal value objects are unequal.
   */
  lemma ListsCompareValueObjectsByInstance(r1: Ref, r2: Ref, s: Scalar)
    requires r1 != r2
    ensures Equals(ScalarObj(r1, s), ScalarObj(r2, s))
    ensures !Equals(Arr([ScalarObj(r1, s)]), Arr([ScalarObj(r2, s)]))
  {
    var xs, ys := [ScalarObj(r1, s)], [ScalarObj(r2, s)];
    assert !StrictEquals(xs[0], ys[0]);
    assert !StrictEquals(Arr(xs), Arr(ys));
  }
}
