/** Multiples of a number. */
module Divisibility {
  import opened Requests

  /** d divides n. */
  predicate Divides(d: int, n: int)
    requires d >= 1
  {
    n % d == 0
  }

  lemma {:induction false} SmallMultiple(q: int, d: int)
    requires d >= 1 && -d < q * d < d
    ensures q == 0
  {
    if q >= 1 {
      MulMono(1, q, d);
      assert false;
    }
    if q <= -1 {
      MulMono(q, -1, d);
      assert false;
    }
  }

  lemma {:induction false} MultipleDivides(q: int, d: int)
    requires d >= 1
    ensures Divides(d, q * d) && q * d / d == q
  {
    var n := q * d;
    assert n == (n / d) * d + n % d;
    assert (q - n / d) * d == q * d - (n / d) * d;
    SmallMultiple(q - n / d, d);
  }

  lemma {:induction false} DividesSum(d: int, a: int, b: int)
    requires d >= 1 && Divides(d, a) && Divides(d, b)
    ensures Divides(d, a + b) && Divides(d, a - b)
  {
    var x, y := a / d, b / d;
    assert a == x * d && b == y * d;
    assert (x + y) * d == x * d + y * d && (x - y) * d == x * d - y * d;
    MultipleDivides(x + y, d);
    MultipleDivides(x - y, d);
  }

  lemma {:induction false} DividesTrans(e: int, d: int, n: int)
    requires e >= 1 && d >= 1 && Divides(e, d) && Divides(d, n)
    ensures Divides(e, n)
  {
    var x, y := n / d, d / e;
    assert n == x * d && d == y * e;
    Associates(x, y, e);
    MultipleDivides(x * y, e);
  }

  lemma {:induction false} Associates(x: int, y: int, e: int)
    ensures x * (y * e) == (x * y) * e
  {
  }

  /** Between two multiples there is room for a whole d. */
  lemma {:induction false} MultiplesApart(d: int, a: int, b: int)
    requires d >= 1 && Divides(d, a) && Divides(d, b) && a < b
    ensures a + d <= b
  {
    DividesSum(d, b, a);
    var q := (b - a) / d;
    assert b - a == q * d;
    if q <= 0 {
      MulMono(q, 0, d);
      assert false;
    }
    MulMono(1, q, d);
  }
}
