# Value equality for PHP, modelled in Dafny

This project models the core of a small PHP library for value equality:

- the `ObjectEquality` interface, through which a class decides for itself whether it equals any other value;
- `Values::equals`, a first-match-wins dispatch. It asks the left operand's `ObjectEquality::equals`, then the right operand's. Next it compares two `DateTimeImmutable`s or two `DateTime`s by the instant they represent. Everything else is compared with strict `===`;
- the private `containsValue` scan and its wrappers `equalsOneIn`, `equalsNoneIn`, `equalsOneOf` and `equalsNoneOf`;
- `ObjectEqualityComparator`, the PHPUnit comparator. It accepts a pair when either side implements `ObjectEquality`, picks that side as the authority, and fails with both original values when the authority says "not equal";
- the `ScalarValueObject` test fixture, the reference `ObjectEquality` implementation that the tests rely on.

PHP values form one closed datatype, `PhpValue.Value`. It holds null, booleans, integers, strings, lists, plain objects, `DateTime`, `DateTimeImmutable` and `ScalarValueObject`. Every object carries a handle (`Ref`), and `===` on objects means "same class and same handle". `ScalarValueObject` is the only class that implements `ObjectEquality`. In this closed universe `Values.Equals` turns out to be an equivalence relation. `Values.EqualsIffSameEqualityClass` proves this from an independent description: two values are equal exactly when they fall in the same equality class. That class is the payload for a value object, the date-time class together with the instant for a date-time, and the `===` identity for everything else.

Modules follow the source files: `PhpValue` (the value universe and `===`), `ScalarValueObject`, `ObjectEquality`, `Values` and `ObjectEqualityComparator`.

## Model

| member | source | states |
|---|---|---|
| PhpValue.StrictEquals | src/Values.php:55 | PHP's `===`: same type and value for scalars, element-wise `===` for lists, same class and handle for objects; its meaning is stated by `StrictEqualsIffSameIdentity` |
| PhpValue.StrictEqualsIffSameIdentity | src/Values.php:55 | `===` holds exactly when the two values have the same identity: the same scalar, lists with identical elements in order, or the same object instance |
| PhpValue.StrictEqualsKeepsKind | src/Values.php:55 | `===` never converts: values it relates have the same PHP type |
| PhpValue.StrictEqualsIsEquivalence | src/Values.php:55 | `===` is reflexive, symmetric and transitive |
| PhpValue.FromScalar | test/Fixtures/ScalarValueObject.php:27 | a value-object payload is always null, a bool, an int or a string |
| ScalarValueObject.Equals | test/Fixtures/ScalarValueObject.php:15-22 | `equals` is true exactly when the argument is a `ScalarValueObject` whose payload is strictly equal to the receiver's |
| ScalarValueObject.PayloadStrictEqualsIffSame | test/Fixtures/ScalarValueObject.php:18 | `===` on two payloads holds exactly when they are the same scalar, with no coercion |
| ScalarValueObject.EqualsRejectsNonInstances | test/Fixtures/ScalarValueObject.php:17-21 | any argument that is not a `ScalarValueObject`, null included, is unequal |
| ScalarValueObject.EqualsRejectsWrappedPayload | test/Fixtures/ScalarValueObject.php:17-21 | the raw scalar a value object wraps is not equal to it |
| ScalarValueObject.EqualsIgnoresIdentity | test/Fixtures/ScalarValueObject.php:18 | two distinct instances with the same payload are equal |
| ScalarValueObject.EqualsIsSymmetric | test/Fixtures/ScalarValueObject.php:18 | between two value objects, `equals` is symmetric |
| ObjectEquality.Implements | src/Values.php:39-43 | `instanceof ObjectEquality`, true of `ScalarValueObject` instances only; the same test decides `accepts` in the comparator |
| ObjectEquality.Equals | src/ObjectEquality.php:17-41 | an implementer's `equals` is total, true for the receiver itself, false for null, and true only for a value of the receiver's own class |
| Values.Equals | src/Values.php:37-56 | the dispatch of `Values::equals`: left authority, right authority, two `DateTimeImmutable`s by instant, two `DateTime`s by instant, else `===`; its meaning is stated by `EqualsIffSameEqualityClass` |
| Values.LeftAuthorityDecides | src/Values.php:39-41 | when the left operand implements `ObjectEquality`, the result is its own `equals` on the right operand, whatever that is |
| Values.RightAuthorityDecides | src/Values.php:43-45 | otherwise, when the right operand implements it, the result is the right operand's `equals` on the left one |
| Values.DateTimesCompareByInstant | src/Values.php:47-53 | two `DateTime`s, or two `DateTimeImmutable`s, are equal exactly when they represent the same instant, whatever their instances |
| Values.MixedDateTimesNeverEqual | src/Values.php:47-55 | a `DateTime` and a `DateTimeImmutable` are never equal, even at the same instant |
| Values.FallsBackToStrict | src/Values.php:55 | with no authority and no same-class date-time pair, the result is `===` |
| Values.EqualsIffSameEqualityClass | src/Values.php:37-56 | two values are equal exactly when their equality classes agree: the same payload for value objects, the same date-time class and instant for date-times, the same `===` identity for everything else |
| Values.EqualsIsEquivalence | src/Values.php:37-56 | with `ScalarValueObject` the only implementer, `equals` is reflexive, symmetric and transitive |
| Values.EqualsKeepsKind | src/Values.php:37-56 | equal values always have the same PHP type, so `1` never equals `"1"` |
| Values.StrictEqualsImpliesEquals | src/Values.php:37-56 | when one instance has one state (`OneStatePerInstance`), values related by `===` are also equal under `equals` |
| Values.OneStatePerInstanceIsNeeded | src/Values.php:51-55 | two `DateTime` values sharing a handle but not an instant are related by `===` yet unequal under `equals`, so `StrictEqualsImpliesEquals` needs its one-state-per-instance premise |
| Values.OnlyNullEqualsNull | src/Values.php:37-56 | only null equals null, from either side, even against an `ObjectEquality` |
| Values.ContainsValue | src/Values.php:66-75 | the scan answers `onMatch` exactly when some element equals the value, and `!onMatch` otherwise |
| Values.FirstMatch | src/Values.php:68-71 | the position it returns has no match before it and holds a match unless it is the end of the list |
| Values.ContainsValueScan | src/Values.php:66-75 | the `foreach` loop agrees with the recursive scan; the number of `equals` calls, counted at each call, is the position of the first match plus one, or the list length when nothing matches |
| Values.EqualsOneIn | src/Values.php:139-142 | true exactly when some element equals the value, so false on the empty list |
| Values.EqualsNoneIn | src/Values.php:163-166 | true exactly when no element equals the value: the exact negation of `equalsOneIn` |
| Values.EqualsOneOf | src/Values.php:78-97 | the variadic form is true exactly when the value equals one or more of the arguments |
| Values.EqualsNoneOf | src/Values.php:99-118 | the variadic form is true exactly when the value equals none of the arguments |
| Values.EmptyListHoldsNothing | test/Unit/ValuesEqualsTest.php:87 | nothing is one of an empty list, and everything is none of it |
| Values.EqualsOneInConcat | src/Values.php:66-75 | searching a concatenation is searching either part |
| Values.EqualsOneInRespectsEquals | src/Values.php:139-142 | with `ScalarValueObject` the only implementer, two equal values are members of exactly the same lists |
| Values.MixedListExample | test/Unit/ValuesEqualsTest.php:62-65 | in the mixed test list `3` is found and `"foo"` is not |
| Values.ValueObjectListExample | test/Unit/ValuesEqualsTest.php:67-85 | a value object is found through another instance with the same payload; one with a different payload is not found |
| Values.ListsCompareValueObjectsByInstance | src/Values.php:55 | lists fall to `===`, which compares the value objects inside them by instance, so lists of equal but distinct value objects are unequal |
| ObjectEqualityComparator.Accepts | src/PHPUnit/ObjectEqualityComparator.php:14-17 | the comparator accepts a pair exactly when the authority `assertEquals` would choose implements `ObjectEquality` |
| ObjectEqualityComparator.SelectAuthority | src/PHPUnit/ObjectEqualityComparator.php:26-34 | the authority is `expected` when it implements `ObjectEquality`, else `actual`; the pair is a rearrangement of the operands, and on an accepted pair the authority implements the interface |
| ObjectEqualityComparator.AssertEquals | src/PHPUnit/ObjectEqualityComparator.php:19-47 | on an accepted pair the assertion passes exactly when `Values::equals` holds, and a failure carries the original, unswapped operands and the fixed message |
| ObjectEqualityComparator.AssertEqualsIgnoresOrder | src/PHPUnit/ObjectEqualityComparator.php:26-36 | with `ScalarValueObject` the only implementer, swapping the operands of an accepted pair keeps it accepted and does not change the verdict |

## Left out

- Floats: PHP float values and float payloads of `ScalarValueObject` are not part of the value universe. This avoids floating-point `===` (NaN, rounding).
- PHP arrays with arbitrary keys: only lists with keys 0, 1, ... are modelled. `===` compares them element by element.
- Iterables: lazy iterables and generators are modelled as a finite `seq`. The keys of an iterable are ignored, as `foreach` over values does.
- DateTime internals: parsing, time zones and what PHP `==` looks at inside a `DateTime` are abstracted to one integer instant. Subclasses of `DateTime` and `DateTimeImmutable` are not modelled.
- Other `ObjectEquality` implementers: `ScalarValueObject` is the only one. Asymmetric or mocked implementations, such as PHPUnit mocks with consecutive return values, are not modelled. So the symmetry and transitivity proved for `Values.Equals` hold for this universe only. The same is true of `Values.EqualsOneInRespectsEquals` and `ObjectEqualityComparator.AssertEqualsIgnoresOrder`. With two implementers that disagree, the left operand (in the comparator, `expected`) would decide, and swapping the operands could change the answer.
- Object state: a handle does not fix an object's payload or instant in the datatype. A value can therefore pair one handle with two different states, which PHP cannot produce. Lemmas that need one state per instance require `Values.OneStatePerInstance`. Without it, `===` can hold while `Values.Equals` fails, for example for `DT(1, 0)` and `DT(1, 5)`.
- Integer width: PHP integers are 64-bit, but the code does no arithmetic on them, so they are modelled as unbounded `int`.
- `Exporter::export` and the internals of `ComparisonFailure`: the failure carries the two values and the message, not their rendered forms.
- ObjectEqualityComparator.AssertEquals: the `assert($left instanceof ObjectEquality)` check is modelled as the precondition `Accepts(expected, actual)`. What PHP does when assertions are disabled and the pair was not accepted is not modelled. The `delta`, `canonicalize` and `ignoreCase` parameters are ignored by the source and left out.
- `ObjectEqualityExtension`: it only registers the comparator with PHPUnit's global comparator factory and has no logic of its own.
