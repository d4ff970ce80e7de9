// Powers of two, exclusive or on numbers, and small facts of arithmetic.
module Bits {
  function Pow2(n: nat): (p: nat)
    ensures p > 0
  {
    if n == 0 then 1 else 2 * Pow2(n - 1)
  }

  lemma Doubled(x: nat, y: nat)
    ensures 2 * x * y == 2 * (x * y)
  {
  }

  lemma {:induction false} Pow2Sum(a: nat, b: nat)
    ensures Pow2(a) * Pow2(b) == Pow2(a + b)
    decreases a
  {
    if a > 0 {
      Pow2Sum(a - 1, b);
      Doubled(Pow2(a - 1), Pow2(b));
    }
  }

  lemma {:induction false} PowGrows(a: nat, b: nat)
    requires a <= b
    ensures Pow2(a) <= Pow2(b)
  {
    if a < b {
      PowGrows(a, b - 1);
    }
  }

  function Min(a: nat, b: nat): nat {
    if a < b then a else b
  }

  lemma Distribute(a: nat, b: nat, t: nat)
    ensures (a + b) * t == a * t + b * t
  {
  }

  /** Exclusive or, bit by bit. */
  function Xor(a: nat, b: nat): nat {
    if a == 0 && b == 0 then 0 else (a % 2 + b % 2) % 2 + 2 * Xor(a / 2, b / 2)
  }

  lemma {:induction false} XorBound(a: nat, b: nat, s: nat)
    requires a < Pow2(s) && b < Pow2(s)
    ensures Xor(a, b) < Pow2(s)
    decreases s
  {
    if s > 0 && !(a == 0 && b == 0) {
      XorBound(a / 2, b / 2, s - 1);
    }
  }

  lemma Twice(x: nat, t: nat, bit: nat)
    requires x == bit + 2 * t && bit < 2
    ensures x % 2 == bit && x / 2 == t
  {
  }

  lemma XorBits(a: nat, b: nat)
    ensures Xor(a, b) % 2 == (a % 2 + b % 2) % 2 && Xor(a, b) / 2 == Xor(a / 2, b / 2)
  {
    if a == 0 && b == 0 {
      assert Xor(0, 0) == 0;
    } else {
      Twice(Xor(a, b), Xor(a / 2, b / 2), (a % 2 + b % 2) % 2);
    }
  }

  lemma FromBits(x: nat, y: nat)
    requires x % 2 == y % 2 && x / 2 == y / 2
    ensures x == y
  {
  }

  lemma Parity(p: nat, q: nat)
    requires p < 2 && q < 2
    ensures ((p + q) % 2 + q) % 2 == p
  {
  }

  lemma {:induction false} XorTwice(a: nat, b: nat)
    ensures Xor(Xor(a, b), b) == a
    decreases a + b
  {
    var x := Xor(a, b);
    if a == 0 && b == 0 {
      assert x == 0;
    } else {
      XorTwice(a / 2, b / 2);
      XorBits(a, b);
      XorBits(x, b);
      Parity(a % 2, b % 2);
      FromBits(Xor(x, b), a);
    }
  }

  /** Pairs of a number and one of sixteen bits, as one number. */
  lemma KeyOrder(s: nat, t: nat, a: nat, b: nat)
    requires a < 65536 && b < 65536
    ensures s * 65536 + a < t * 65536 + b <==> s < t || (s == t && a < b)
    ensures s * 65536 + a == t * 65536 + b <==> s == t && a == b
  {
  }
}
