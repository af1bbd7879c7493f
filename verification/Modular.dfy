/** Remainders by a divisor that is not a constant. */
module Modular {

  lemma {:induction false} AtLeast(d: int, n: int)
    requires d >= 1 && n > 0
    ensures d * n >= n
    decreases d
  {
    if d > 1 {
      AtLeast(d - 1, n);
      assert d * n == (d - 1) * n + n;
    }
  }

  lemma {:induction false} AtMost(d: int, n: int)
    requires d <= -1 && n > 0
    ensures d * n <= -n
    decreases -d
  {
    if d < -1 {
      AtMost(d + 1, n);
      assert d * n == (d + 1) * n - n;
    }
  }

  /** Two remainders that differ by a multiple of the divisor are equal. */
  lemma SameRemainder(d: int, r: int, s: int, n: int)
    requires 0 <= r < n && 0 <= s < n && d * n + s == r
    ensures d == 0 && s == r
  {
    if d >= 1 {
      AtLeast(d, n);
    } else if d <= -1 {
      AtMost(d, n);
    }
  }

  lemma Distribute(a: int, b: int, n: int)
    ensures (a - b) * n == a * n - b * n
  {
  }

  lemma Divide(x: int, n: int) returns (q: int, r: int)
    requires n > 0
    ensures r == x % n && 0 <= r < n && x == q * n + r
  {
    q, r := x / n, x % n;
  }

  lemma StepKeeps(a: int, n: int)
    requires n > 0
    ensures (a + n) % n == a % n
  {
    var p, r := Divide(a, n);
    var q, s := Divide(a + n, n);
    Distribute(q, p, n);
    Distribute(q - p, 1, n);
    SameRemainder(q - p - 1, r, s, n);
  }

  /** The remainder, by taking the divisor away as often as it goes. */
  function Wrap(a: nat, n: nat): (r: nat)
    requires n > 0
    ensures r < n
  {
    if a < n then a else Wrap(a - n, n)
  }

  lemma {:induction false} WrapIsRemainder(a: nat, n: nat)
    requires n > 0
    ensures Wrap(a, n) == a % n
  {
    if a < n {
      var q, r := Divide(a, n);
      SameRemainder(q, a, r, n);
    } else {
      WrapIsRemainder(a - n, n);
      StepKeeps(a - n, n);
    }
  }

  lemma {:induction false} NearDiffers(a: nat, b: nat, n: nat)
    requires n > 0 && 0 < b - a < n
    ensures Wrap(a, n) != Wrap(b, n)
    decreases a
  {
    if a >= n {
      NearDiffers(a - n, b - n, n);
    } else if b >= n {
      assert Wrap(b, n) == b - n;
    }
  }
}
