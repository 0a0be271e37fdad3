/** What several modules share. */
module Basics {

  datatype Option<+T> = None | Some(value: T)

  /** Go's integer division, which truncates toward zero. */
  function TruncDiv(a: int, d: int): (q: int)
    requires d != 0
    ensures d > 0 ==> (a >= 0 ==> q >= 0) && (a <= 0 ==> q <= 0)
  {
    if d > 0 then (if a >= 0 then a / d else -(-a / d))
    else (if a >= 0 then -(a / -d) else -a / -d)
  }

  lemma TruncDivBounds(a: int, d: int)
    requires d > 0 && a >= 0
    ensures var q := TruncDiv(a, d); q * d <= a < q * d + d
  {
    assert a == d * (a / d) + a % d;
  }

  /** The quotient leaves a remainder smaller than the divisor and of the dividend's sign. */
  lemma TruncatesTowardZero(a: int, d: int)
    requires d != 0
    ensures var rest, size := a - TruncDiv(a, d) * d, if d > 0 then d else -d;
            (a >= 0 ==> 0 <= rest < size) && (a <= 0 ==> -size < rest <= 0)
  {
    var size, magnitude := if d > 0 then d else -d, if a >= 0 then a else -a;
    var q := magnitude / size;
    QuotientBounds(magnitude, size);
    SignedProducts(q, size);
    assert TruncDiv(a, d) == if (a >= 0) == (d > 0) then q else -q;
    hide TruncDiv;
  }

  lemma QuotientBounds(a: int, d: int)
    requires d > 0 && a >= 0
    ensures a / d * d <= a < a / d * d + d
  {
    assert a == d * (a / d) + a % d;
  }

  lemma SignedProducts(q: int, d: int)
    ensures (-q) * d == -(q * d) && q * (-d) == -(q * d) && (-q) * (-d) == q * d
  {
  }
}
