/** Small failure-carrying datatypes used across the model. */
module Base {

  /** Python's `Optional[T]`: `None` or a present value. */
  datatype Option<+T> = None | Some(value: T)

  /** A value, or the error that was raised instead. */
  datatype Result<+T, +E> = Ok(value: T) | Err(error: E)

  /** The value of an `Option`, or a default when it is absent. */
  function GetOr<T>(o: Option<T>, default: T): (r: T)
    ensures o.Some? ==> r == o.value
    ensures o.None? ==> r == default
  {
    match o
    case Some(v) => v
    case None => default
  }

  /** Minimum and maximum of two integers. */
  function Min(a: int, b: int): (r: int)
    ensures r <= a && r <= b && (r == a || r == b)
  {
    if a <= b then a else b
  }

  function Max(a: int, b: int): (r: int)
    ensures r >= a && r >= b && (r == a || r == b)
  {
    if a >= b then a else b
  }

  /** `2 ** k` for a natural exponent. */
  function Pow2(k: nat): nat {
    if k == 0 then 1 else 2 * Pow2(k - 1)
  }

  /** A set with no members is empty (set extensionality). */
  lemma NoMemberMeansEmpty(s: set<int>)
    ensures (forall x :: x !in s) ==> s == {}
  {
    if forall x :: x !in s {
      assert s == {};
    }
  }

  /** A non-empty set has a member, so `var x :| x in s` can pick one. */
  lemma NonEmptyHasMember(s: set<int>)
    requires s != {}
    ensures exists x :: x in s
  {
    NoMemberMeansEmpty(s);
  }
}
