/**
 The permutation of 16-bit numbers by which record sets and name servers are shuffled
 (`dns_k_shuffle16`): four rounds over two octets, through the S-box.
 */
module DnsShuffle {
  import opened Bits
  import opened DnsBox

  lemma BoxInjective(x: nat, y: nat)
    requires x < 256 && y < 256 && Box(x) == Box(y)
    ensures x == y
  {
    BoxInverse(x);
    BoxInverse(y);
  }

  // ---------------------------------------------------------------- the rounds

  /** The two octets, the low one first. */
  datatype Pair = Pair(a: nat, b: nat) {
    predicate Valid() {
      a < 256 && b < 256
    }
  }

  function Parts(n: nat): Pair {
    Pair(n % 256, n / 256 % 256)
  }

  /** One round, with one octet of the seed. */
  function Turn(p: Pair, k: nat): Pair {
    var a := Xor(Box(Xor(p.a, k)), p.b);
    Pair(a, Xor(Box(p.b), a))
  }

  /** The seed's octets in the order they are used. */
  datatype Seed = Spent | Octet(k: nat, rest: Seed)

  function Octets(s: nat, n: nat): Seed
    decreases n
  {
    if n == 0 then Spent else Octet(s % 256, Octets(s / 256, n - 1))
  }

  predicate Small(ks: Seed) {
    ks.Octet? ==> ks.k < 256 && Small(ks.rest)
  }

  function Turns(p: Pair, ks: Seed): Pair
    decreases ks
  {
    if ks == Spent then p else Turns(Turn(p, ks.k), ks.rest)
  }

  function ShuffleWith(n: nat, ks: Seed): nat {
    var p := Turns(Parts(n), ks);
    p.a * 256 + p.b
  }

  /** `n` shuffled under the seed `s`. */
  function Shuffle(n: nat, s: nat): nat {
    ShuffleWith(n, Octets(s, 4))
  }

  /** One turn: the high octet through the box with an octet of the seed, and both mixed. */
  predicate Turned(p: Pair, k: nat, q: Pair) {
    q.a == Xor(Box(Xor(p.a, k)), p.b) && q.b == Xor(Box(p.b), q.a)
  }

  lemma OneTurn(p: Pair, k: nat, ks: Seed, q: Pair)
    requires Turned(p, k, q)
    ensures Turns(p, Octet(k, ks)) == Turns(q, ks)
  {
  }

  lemma FourOctets(s: nat)
    ensures Octets(s, 4) == Octet(s % 256, Octet(s / 256 % 256,
                                                 Octet(s / 0x1_0000 % 256, Octet(s / 0x100_0000 % 256, Spent))))
  {
    var s1, s2, s3 := s / 256, s / 0x1_0000, s / 0x100_0000;
    assert s1 / 256 == s2 && s2 / 256 == s3;
    assert Octets(s3 / 256, 0) == Spent;
    assert Octets(s3, 1) == Octet(s3 % 256, Spent);
    assert Octets(s2, 2) == Octet(s2 % 256, Octets(s3, 1));
    assert Octets(s1, 3) == Octet(s1 % 256, Octets(s2, 2));
    assert Octets(s, 4) == Octet(s % 256, Octets(s1, 3));
  }

  /** The four turns written out, with the seed's octets from the lowest on. */
  lemma {:induction false} FourTurns(n: nat, s: nat, p: seq<Pair>)
    requires |p| == 5 && p[0] == Pair(n % 256, n / 256 % 256)
    requires Turned(p[0], s % 256, p[1]) && Turned(p[1], s / 256 % 256, p[2])
    requires Turned(p[2], s / 0x1_0000 % 256, p[3]) && Turned(p[3], s / 0x100_0000 % 256, p[4])
    ensures Shuffle(n, s) == p[4].a * 256 + p[4].b
  {
    FourOctets(s);
    var ks := Octet(s / 0x100_0000 % 256, Spent);
    OneTurn(p[3], s / 0x100_0000 % 256, Spent, p[4]);
    OneTurn(p[2], s / 0x1_0000 % 256, ks, p[3]);
    OneTurn(p[1], s / 256 % 256, Octet(s / 0x1_0000 % 256, ks), p[2]);
    OneTurn(p[0], s % 256, Octet(s / 256 % 256, Octet(s / 0x1_0000 % 256, ks)), p[1]);
  }

  /** The turns for the `n` octets of `s` that are left lead to `q`. */
  predicate Leads(p: Pair, s: nat, n: nat, q: Pair) {
    p.Valid() && Turns(p, Octets(s, n)) == q
  }

  lemma TurnLeads(p: Pair, s: nat, n: nat, q: Pair)
    requires n > 0 && Leads(p, s, n, q)
    ensures Leads(Turn(p, s % 256), s / 256, n - 1, q)
  {
    TurnValid(p, s % 256);
  }

  lemma NoneLeft(p: Pair, s: nat, q: Pair)
    requires Leads(p, s, 0, q)
    ensures p == q
  {
  }

  lemma Shuffled(n: nat, seed: nat) returns (q: Pair)
    requires n < 65536
    ensures Leads(Parts(n), seed, 4, q) && Shuffle(n, seed) == q.a * 256 + q.b
  {
    q := Turns(Parts(n), Octets(seed, 4));
  }

  /** The body of the loop. */
  method Round(a0: nat, b0: nat, s: nat, ghost n: nat, ghost q: Pair) returns (a: nat, b: nat)
    requires n > 0 && Leads(Pair(a0, b0), s, n, q)
    ensures Leads(Pair(a, b), s / 256, n - 1, q)
  {
    TurnLeads(Pair(a0, b0), s, n, q);
    a, b := a0, b0;
    a := Xor(a, s % 256);
    a := Xor(Box(a), b);
    b := Xor(Box(b), a);
  }

  /** `dns_k_shuffle16`. */
  method Shuffle16(n: nat, seed: nat) returns (r: nat)
    requires n < 65536
    ensures r == Shuffle(n, seed) && r < 65536
  {
    var a: nat, b: nat, s: nat := n % 256, n / 256 % 256, seed;
    ghost var q := Shuffled(n, seed);
    var i: nat := 0;
    while i < 4
      invariant i <= 4 && Leads(Pair(a, b), s, 4 - i, q)
    {
      a, b := Round(a, b, s, 4 - i, q);
      s := s / 256;
      i := i + 1;
    }
    NoneLeft(Pair(a, b), s, q);
    r := a * 256 + b;
  }

  lemma XorOctets(a: nat, b: nat)
    requires a < 256 && b < 256
    ensures Xor(a, b) < 256
  {
    assert Pow2(8) == 256;
    XorBound(a, b, 8);
  }

  lemma XorCancels(a: nat, b: nat, k: nat)
    requires Xor(a, k) == Xor(b, k)
    ensures a == b
  {
    XorTwice(a, k);
    XorTwice(b, k);
  }

  lemma TurnValid(p: Pair, k: nat)
    requires p.Valid() && k < 256
    ensures Turn(p, k).Valid()
  {
    XorOctets(p.a, k);
    BoxInverse(Xor(p.a, k));
    XorOctets(Box(Xor(p.a, k)), p.b);
    BoxInverse(p.b);
    XorOctets(Box(p.b), Turn(p, k).a);
  }

  lemma TurnInjective(p: Pair, q: Pair, k: nat)
    requires p.Valid() && q.Valid() && k < 256 && Turn(p, k) == Turn(q, k)
    ensures p == q
  {
    XorCancels(Box(p.b), Box(q.b), Turn(p, k).a);
    BoxInjective(p.b, q.b);
    XorOctets(p.a, k);
    XorOctets(q.a, k);
    XorCancels(Box(Xor(p.a, k)), Box(Xor(q.a, k)), p.b);
    BoxInjective(Xor(p.a, k), Xor(q.a, k));
    XorCancels(p.a, q.a, k);
  }

  lemma {:induction false} TurnsInjective(p: Pair, q: Pair, ks: Seed)
    requires p.Valid() && q.Valid() && Small(ks) && Turns(p, ks) == Turns(q, ks)
    ensures p == q
    decreases ks
  {
    if ks.Octet? {
      TurnValid(p, ks.k);
      TurnValid(q, ks.k);
      TurnsInjective(Turn(p, ks.k), Turn(q, ks.k), ks.rest);
      TurnInjective(p, q, ks.k);
    }
  }

  lemma {:induction false} TurnsValid(p: Pair, ks: Seed)
    requires p.Valid() && Small(ks)
    ensures Turns(p, ks).Valid()
    decreases ks
  {
    if ks.Octet? {
      TurnValid(p, ks.k);
      TurnsValid(Turn(p, ks.k), ks.rest);
    }
  }

  lemma SameOctets(a: nat, b: nat, c: nat, d: nat)
    requires b < 256 && d < 256 && a * 256 + b == c * 256 + d
    ensures a == c && b == d
  {
  }

  lemma WholeOctets(n: nat)
    requires n < 65536
    ensures n / 256 < 256 && n == n / 256 % 256 * 256 + n % 256
  {
  }

  lemma ShuffleWithInjective(m: nat, n: nat, ks: Seed)
    requires m < 65536 && n < 65536 && Small(ks) && ShuffleWith(m, ks) == ShuffleWith(n, ks)
    ensures m == n
  {
    var p, q := Parts(m), Parts(n);
    TurnsValid(p, ks);
    TurnsValid(q, ks);
    SameOctets(Turns(p, ks).a, Turns(p, ks).b, Turns(q, ks).a, Turns(q, ks).b);
    TurnsInjective(p, q, ks);
    WholeOctets(m);
    WholeOctets(n);
  }

  lemma {:induction false} OctetsSmall(s: nat, n: nat)
    ensures Small(Octets(s, n))
    decreases n
  {
    if n > 0 {
      OctetsSmall(s / 256, n - 1);
    }
  }

  lemma ShuffleBound(n: nat, s: nat)
    ensures Shuffle(n, s) < 65536
  {
    OctetsSmall(s, 4);
    TurnsValid(Parts(n), Octets(s, 4));
  }

  /** Under one seed, no two 16-bit numbers are shuffled to the same. */
  lemma {:induction false} ShuffleInjective(m: nat, n: nat, s: nat)
    requires m < 65536 && n < 65536 && Shuffle(m, s) == Shuffle(n, s)
    ensures m == n
  {
    OctetsSmall(s, 4);
    ShuffleWithInjective(m, n, Octets(s, 4));
  }
}
