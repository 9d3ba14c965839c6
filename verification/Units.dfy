/**
  Fixed-point quantities. Times are microseconds, rates are bits per second; an
  infinite value of the program is `None`. The rounding operators are the ones the
  program uses when it leaves the integers and comes back.
 */
module Units {

  datatype Option<+T> = None | Some(value: T) {
    function GetOr(default: T): T {
      match this
      case Some(v) => v
      case None => default
    }
  }

  const MILLISECOND := 1000
  const SECOND := 1_000_000

  function Min(a: int, b: int): int {
    if a < b then a else b
  }

  function Max(a: int, b: int): int {
    if a > b then a else b
  }

  function MinReal(a: real, b: real): real {
    if a < b then a else b
  }

  function MaxReal(a: real, b: real): real {
    if a > b then a else b
  }

  function AbsReal(a: real): real {
    if a < 0.0 then -a else a
  }

  /** The two comparisons of `SafeClamp`, in its order. */
  function ClampReal(x: real, low: real, high: real): (r: real)
    requires low <= high
    ensures low <= r <= high
    ensures low <= x <= high ==> r == x
  {
    var capped := if x > high then high else x;
    if capped < low then low else capped
  }

  function Clamp(x: int, low: int, high: int): (r: int)
    requires low <= high
    ensures low <= r <= high
    ensures low <= x <= high ==> r == x
  {
    Max(low, Min(x, high))
  }

  /** A cast from floating point to integer: towards zero. */
  function Truncate(x: real): (r: int)
    ensures x >= 0.0 ==> 0 <= r && r as real <= x < r as real + 1.0
    ensures x <= 0.0 ==> r <= 0 && r as real - 1.0 < x <= r as real
  {
    if x >= 0.0 then x.Floor else -((-x).Floor)
  }

  /** Half away from zero. */
  function Round(x: real): (r: int)
    ensures AbsReal(r as real - x) <= 0.5
    ensures x >= 0.0 ==> r >= 0
    ensures x <= 0.0 ==> r <= 0
  {
    if x >= 0.0 then (x + 0.5).Floor else -((0.5 - x).Floor)
  }

  lemma RoundIsMonotone(x: real, y: real)
    requires x <= y
    ensures Round(x) <= Round(y)
  {
  }

  lemma TruncateIsMonotone(x: real, y: real)
    requires x <= y
    ensures Truncate(x) <= Truncate(y)
  {
  }

  /** Integer division of the source language: towards zero. */
  function TruncatingDivide(n: int, d: int): int
    requires d > 0
  {
    if n >= 0 then n / d else -((-n) / d)
  }

  lemma QuotientIsNear(n: nat, d: int)
    requires d > 0
    ensures -d <= 2 * ((n + d / 2) / d * d - n) <= d
  {
    var k := n + d / 2;
    assert k == k / d * d + k % d;
  }

  function DivRoundToNearest(n: int, d: int): (r: int)
    requires d > 0
    ensures -d <= 2 * (r * d - n) <= d
  {
    QuotientIsNear(if n >= 0 then n else -n, d);
    assert n < 0 ==> -((-n + d / 2) / d) * d == -((-n + d / 2) / d * d);
    TruncatingDivide(n + (if n >= 0 then d / 2 else -(d / 2)), d)
  }

  function DivRoundPositiveToNearest(n: nat, d: int): (r: nat)
    requires d > 0
    ensures -d <= 2 * (r * d - n) <= d
  {
    QuotientIsNear(n, d);
    (n + d / 2) / d
  }
}
