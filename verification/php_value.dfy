/**
 A closed universe of PHP values, as far as value comparison is concerned, and
 PHP's strict comparison operator `===` over it.

 Objects carry a `Ref`, the handle that tells two instances apart: `===` on
 objects is instance identity, which here means "same class and same handle".
 Floats are not part of the universe.
 */
module PhpValue {

  /** The handle of an object instance. */
  type Ref = nat

  /** The payload a `ScalarValueObject` may hold (`bool|int|string|null`). */
  datatype Scalar =
    | NullScalar
    | BoolScalar(truth: bool)
    | IntScalar(n: int)
    | StringScalar(text: string)

  datatype Value =
    | Null
    | Bool(truth: bool)
    | Int(n: int)
    | Str(text: string)
      /** A PHP list: an array whose keys are 0, 1, ... in order. */
    | Arr(items: seq<Value>)
      /** An instance of a class with no equality of its own (`stdClass`, ...). */
    | Obj(ref: Ref)
      /** A `DateTime`; `instant` abstracts the point in time it represents. */
    | DT(ref: Ref, instant: int)
      /** A `DateTimeImmutable`. */
    | DTI(ref: Ref, instant: int)
      /** A `ScalarValueObject`, the class that implements `ObjectEquality`. */
    | ScalarObj(ref: Ref, scalar: Scalar)

  /** The PHP type of a value, with objects told apart by class. */
  datatype Kind =
    | NullKind | BoolKind | IntKind | StringKind | ArrayKind
    | PlainObjectKind | DateTimeKind | DateTimeImmutableKind | ScalarValueObjectKind

  function KindOf(v: Value): Kind {
    match v
    case Null => NullKind
    case Bool(_) => BoolKind
    case Int(_) => IntKind
    case Str(_) => StringKind
    case Arr(_) => ArrayKind
    case Obj(_) => PlainObjectKind
    case DT(_, _) => DateTimeKind
    case DTI(_, _) => DateTimeImmutableKind
    case ScalarObj(_, _) => ScalarValueObjectKind
  }

  /** The PHP value a scalar payload stands for. */
  function FromScalar(s: Scalar): (v: Value)
    ensures v.Null? || v.Bool? || v.Int? || v.Str?
  {
    match s
    case NullScalar => Null
    case BoolScalar(b) => Bool(b)
    case IntScalar(n) => Int(n)
    case StringScalar(t) => Str(t)
  }

  /**
   PHP's `$a === $b`: same type and same value, never a conversion. Lists are
   identical when they have the same length and identical elements in order;
   objects are identical when they are the same instance.
   */
  predicate StrictEquals(a: Value, b: Value)
    decreases a
  {
    match a
    case Null => b.Null?
    case Bool(x) => b.Bool? && b.truth == x
    case Int(x) => b.Int? && b.n == x
    case Str(x) => b.Str? && b.text == x
    case Arr(xs) =>
      b.Arr? && |xs| == |b.items| &&
      forall i :: 0 <= i < |xs| ==> StrictEquals(xs[i], b.items[i])
    case Obj(r) => b.Obj? && b.ref == r
    case DT(r, _) => b.DT? && b.ref == r
    case DTI(r, _) => b.DTI? && b.ref == r
    case ScalarObj(r, _) => b.ScalarObj? && b.ref == r
  }

  /**
   What `===` looks at in a value: the whole of a scalar, the element
   identities of a list, and only the class and handle of an object.
   */
  datatype Identity =
    | NullId
    | BoolId(truth: bool)
    | IntId(n: int)
    | StringId(text: string)
    | ListId(elements: seq<Identity>)
    | InstanceId(kind: Kind, ref: Ref)

  function IdentityOf(v: Value): Identity
    decreases v
  {
    match v
    case Null => NullId
    case Bool(b) => BoolId(b)
    case Int(n) => IntId(n)
    case Str(t) => StringId(t)
    case Arr(xs) => ListId(seq(|xs|, i requires 0 <= i < |xs| => IdentityOf(xs[i])))
    case Obj(r) => InstanceId(PlainObjectKind, r)
    case DT(r, _) => InstanceId(DateTimeKind, r)
    case DTI(r, _) => InstanceId(DateTimeImmutableKind, r)
    case ScalarObj(r, _) => InstanceId(ScalarValueObjectKind, r)
  }

  /** `===` holds exactly when both values have the same identity. */
  lemma {:induction false} StrictEqualsIffSameIdentity(a: Value, b: Value)
    ensures StrictEquals(a, b) <==> IdentityOf(a) == IdentityOf(b)
    decreases a
  {
    match a
    case Arr(xs) =>
      if b.Arr? {
        var ys := b.items;
        forall i | 0 <= i < |xs| && i < |ys|
          ensures StrictEquals(xs[i], ys[i]) <==> IdentityOf(xs[i]) == IdentityOf(ys[i])
        {
          StrictEqualsIffSameIdentity(xs[i], ys[i]);
        }
        var ia, ib := IdentityOf(a).elements, IdentityOf(b).elements;
        if StrictEquals(a, b) {
          assert |ia| == |ib|;
          forall i | 0 <= i < |ia| ensures ia[i] == ib[i] {
            assert StrictEquals(xs[i], ys[i]);
          }
        }
        if IdentityOf(a) == IdentityOf(b) {
          assert |xs| == |ia| == |ib| == |ys|;
          forall i | 0 <= i < |xs| ensures StrictEquals(xs[i], ys[i]) {
            assert ia[i] == ib[i];
          }
        }
      }
    case _ =>
  }

  /** `===` never converts: identical values are of the same PHP type. */
  lemma StrictEqualsKeepsKind(a: Value, b: Value)
    requires StrictEquals(a, b)
    ensures KindOf(a) == KindOf(b)
  {
  }

  /** `===` is an equivalence relation. */
  lemma StrictEqualsIsEquivalence(a: Value, b: Value, c: Value)
    ensures StrictEquals(a, a)
    ensures StrictEquals(a, b) ==> StrictEquals(b, a)
    ensures StrictEquals(a, b) && StrictEquals(b, c) ==> StrictEquals(a, c)
  {
    StrictEqualsIffSameIdentity(a, a);
    StrictEqualsIffSameIdentity(a, b);
    StrictEqualsIffSameIdentity(b, a);
    StrictEqualsIffSameIdentity(b, c);
    StrictEqualsIffSameIdentity(a, c);
  }
}
