/** Values shared by every service: row identities, optional values, the
    success/failure outcome of a service call, and JavaScript's `Math.round`
    applied to an integer quotient. */
module Common {

  /** A row identity. Prisma generates them; here they come from a counter. */
  type Id = nat

  /** An optional field (`undefined` / `null` in the source). */
  datatype Option<T> = None | Some(value: T)

  /** The outcome of a service call: a value, or the message of the thrown `Error`. */
  datatype Result<T> = Ok(value: T) | Err(error: string)

  /** Prisma's `Record to update not found.` failure, thrown by `update`/`delete`
      when no row has the given id. */
  const RecordNotFound: string := "Record to update not found."

  /** Prisma's unique-constraint failure, thrown when a write would duplicate a
      `@unique` column. */
  const UniqueViolation: string := "Unique constraint failed"

  /** Prisma's failure when a written reference names no row of the referenced table. */
  const ForeignKeyViolation: string := "Foreign key constraint failed"

  /** A JavaScript truthiness test on an optional text filter: absent and ""
      both mean "no filter". */
  predicate Given(o: Option<string>)
  {
    o.Some? && o.value != ""
  }

  /** `Math.round(a / n)` for an integer `a` and a divisor `n >= 1`: the nearest
      integer, with halves rounded up (towards +infinity, as `Math.round` does
      for negative halves too). */
  function RoundDiv(a: int, n: int): (r: int)
    requires n >= 1
    ensures n * (2 * r - 1) <= 2 * a < n * (2 * r + 1)
  {
    var q := (2 * a + n) / (2 * n);
    var m := (2 * a + n) % (2 * n);
    assert 2 * a + n == 2 * n * q + m && 0 <= m < 2 * n;
    assert n * (2 * q - 1) == 2 * n * q - n;
    assert n * (2 * q + 1) == 2 * n * q + n;
    q
  }

  /** The rounding contract determines the result: no other integer is within
      half a unit of `a / n` in the same way. */
  lemma RoundDivUnique(a: int, n: int, r: int)
    requires n >= 1
    requires n * (2 * r - 1) <= 2 * a < n * (2 * r + 1)
    ensures r == RoundDiv(a, n)
  {
    var q := RoundDiv(a, n);
    MulMonotone(n, 2 * r + 1, 2 * q - 1);
    MulMonotone(n, 2 * q + 1, 2 * r - 1);
  }

  lemma MulMonotone(n: int, x: int, y: int)
    requires n >= 0
    ensures x <= y ==> n * x <= n * y
  {
    assert n * y - n * x == n * (y - x);
  }

  /** An exact quotient is not altered by rounding. */
  lemma RoundDivExact(a: int, n: int)
    requires n >= 1 && a % n == 0
    ensures RoundDiv(a, n) == a / n
  {
    var q := a / n;
    assert a == n * q;
    assert n * (2 * q - 1) == 2 * a - n;
    assert n * (2 * q + 1) == 2 * a + n;
    RoundDivUnique(a, n, q);
  }
}
