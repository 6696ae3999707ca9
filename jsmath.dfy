/** `Math.round(a / b)` and `Math.round((a / b) * 100)` on integer operands,
    in exact arithmetic. Math.round rounds half-way cases up (towards
    positive infinity): it is floor(x + 1/2). Division by zero gives NaN or
    an infinity in JavaScript, which has no integer value: it is `None`. */
module JsMath {
  import opened Records

  /** Math.round(a / b) */
  function RoundQuotient(a: int, b: int): (r: Option<int>)
    ensures r.None? <==> b == 0
    ensures b > 0 ==> -b <= 2 * (a - b * r.value) < b
    ensures b < 0 ==> b < 2 * (a - b * r.value) <= -b
  {
    if b == 0 then None
    else if b > 0 then Some((2 * a + b) / (2 * b))
    else Some((-2 * a - b) / (-2 * b))
  }

  /** The characterisation in RoundQuotient's contract picks exactly one
      integer: Math.round is the nearest integer, half-way cases going up. */
  lemma RoundQuotientUnique(a: int, b: int, q: int)
    requires b > 0
    requires -b <= 2 * (a - b * q) < b
    ensures RoundQuotient(a, b) == Some(q)
  {
    var r := RoundQuotient(a, b).value;
    assert -b <= 2 * (a - b * r) < b;
    // both b*q and b*r lie in (a - b/2, a + b/2], an interval shorter than b
    assert b * q - b * r < b && b * r - b * q < b;
    if q > r {
      assert b * (q - r) == b * q - b * r;
      MulAtLeast(b, q - r);
      assert false;
    } else if q < r {
      assert b * (r - q) == b * r - b * q;
      MulAtLeast(b, r - q);
      assert false;
    }
  }

  lemma {:induction false} MulAtLeast(b: int, d: int)
    requires b > 0 && d >= 1
    ensures b * d >= b
  {
    if d > 1 {
      MulAtLeast(b, d - 1);
      assert b * d == b * (d - 1) + b;
    }
  }

  /** Math.round((part / whole) * 100): a percentage rounded to an integer.
      Both the hostel table's getOccupancyRate and the room table's
      occupancy column are this, of occupied over capacity. */
  function Percent(part: int, whole: int): (r: Option<int>)
    ensures r.None? <==> whole == 0
  {
    RoundQuotient(100 * part, whole)
  }

  /** A part between zero and a positive whole is 0..100 percent of it, and
      exactly 0 or 100 at the ends. */
  lemma PercentBounds(part: int, whole: int)
    requires 0 <= part <= whole && whole > 0
    ensures Percent(part, whole).Some?
    ensures 0 <= Percent(part, whole).value <= 100
    ensures part == 0 ==> Percent(part, whole).value == 0
    ensures part == whole ==> Percent(part, whole).value == 100
  {
    var r := Percent(part, whole).value;
    assert -whole <= 2 * (100 * part - whole * r) < whole;
    if r < 0 {
      assert whole * (-r) == -(whole * r);
      MulAtLeast(whole, -r);
      assert false;
    }
    if r > 100 {
      assert whole * (r - 100) == whole * r - 100 * whole;
      MulAtLeast(whole, r - 100);
      assert false;
    }
    if part == 0 {
      RoundQuotientUnique(0, whole, 0);
    }
    if part == whole {
      RoundQuotientUnique(100 * whole, whole, 100);
    }
  }
}
