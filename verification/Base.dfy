/** Small shared vocabulary: optional values, results, and set counting. */
module Base {

  datatype Option<+T> = None | Some(value: T)

  datatype Result<+T, +E> = Ok(value: T) | Err(error: E)

  /** A database instant in whole microseconds. */
  type Time = int

  /** A process instant in nanoseconds since the zero time. */
  type Instant = int

  /** Values an integer column holds: 32 bits, signed. */
  predicate InRange(n: int) { -0x8000_0000 <= n <= 0x7FFF_FFFF }

  /** The values of a 16-bit column. */
  predicate SmallInRange(n: int) { -0x8000 <= n <= 0x7FFF }

  predicate OptionInRange(value: Option<int>) { value.Some? ==> InRange(value.value) }

  function Min(a: int, b: int): int {
    if a <= b then a else b
  }

  function Max(a: int, b: int): int {
    if a <= b then b else a
  }

  /** SQL's COALESCE(column, value). */
  function Coalesce<T>(column: Option<T>, value: T): Option<T> {
    if column.Some? then column else Some(value)
  }

  lemma SubsetCardinality<T>(a: set<T>, b: set<T>)
    requires a <= b
    ensures |a| <= |b|
    ensures a != b ==> |a| < |b|
  {
    assert b == a + (b - a);
  }

  /** The whole numbers 1..n. */
  function UpTo(n: nat): (r: set<nat>)
    ensures forall k: nat :: k in r <==> 1 <= k <= n
    ensures |r| == n
  {
    if n == 0 then {} else UpTo(n - 1) + {n}
  }
}
