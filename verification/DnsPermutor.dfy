/**
 The generator of query ids: a balanced Feistel network over a power of four, stepped through by a
 32-bit counter, with values outside the wanted range rejected (`dns_k_permutor`).  The round function
 (TEA under a random key) may be any function.
 */
module DnsPermutor {
  import opened Bits

  // ---------------------------------------------------------------- the network

  /** Both halves of a number of `2 * shift` bits. */
  datatype Halves = Halves(l: nat, r: nat)

  /** The round function, masked to a half. */
  datatype Network = Network(f: (nat, nat) -> nat, shift: nat, rounds: nat) {
    /** The loops run once at least, and stop one short of `rounds`. */
    function Turns(): nat {
      if rounds < 2 then 1 else rounds - 1
    }

    /** How many values a half has. */
    function M(): (m: nat)
      ensures m > 0
    {
      Pow2(shift)
    }

    /** How many values a number has. */
    function N(): (n: nat)
      ensures n > 0
    {
      Pow2(2 * shift)
    }

    function F(k: nat, x: nat): (y: nat)
      ensures y < M()
    {
      f(k, x) % M()
    }

    predicate Fits(h: Halves) {
      h.l < M() && h.r < M()
    }

    function Split(n: nat): (h: Halves)
      ensures Fits(h)
    {
      Halves(n / M() % M(), n % M())
    }

    function Join(h: Halves): nat {
      h.l % M() * M() + h.r % M()
    }

    function Round(i: nat, h: Halves): Halves {
      Halves(h.r, Xor(h.l, F(i, h.r)))
    }

    function Unround(i: nat, h: Halves): Halves {
      Halves(Xor(h.r, F(i, h.l)), h.l)
    }

    /** Rounds 0 to `i - 1`. */
    function Forward(i: nat, h: Halves): Halves {
      if i == 0 then h else Round(i - 1, Forward(i - 1, h))
    }

    /** Rounds `i - 1` to 0, undone. */
    function Backward(i: nat, h: Halves): Halves {
      if i == 0 then h else Backward(i - 1, Unround(i - 1, h))
    }

    function Encrypt(n: nat): nat {
      Join(Forward(Turns(), Split(n)))
    }

    function Decrypt(n: nat): nat {
      Join(Backward(Turns(), Split(n)))
    }
  }

  /**
   A round: the halves change places, and the one that was left is mixed with what the round function makes of the
   other.
   */
  predicate Mixed(w: Network, i: nat, h: Halves, g: Halves) {
    g.l == h.r && g.r == Xor(h.l, w.f(i, h.r) % Pow2(w.shift))
  }

  lemma {:induction false} RoundsFrom(w: Network, h: seq<Halves>, i: nat)
    requires i < |h| && forall j :: 0 <= j < |h| - 1 ==> Mixed(w, j, h[j], h[j + 1])
    ensures w.Forward(i, h[0]) == h[i]
    decreases i
  {
    if i > 0 {
      RoundsFrom(w, h, i - 1);
      assert Mixed(w, i - 1, h[i - 1], h[i - 1 + 1]);
    }
  }

  /** A network set up for eight rounds makes seven: what encryption is, round for round. */
  lemma {:induction false} SevenRounds(w: Network, n: nat, h: seq<Halves>)
    requires w.rounds == 8 && |h| == 8 && h[0] == Halves(n / Pow2(w.shift) % Pow2(w.shift), n % Pow2(w.shift))
    requires forall j :: 0 <= j < 7 ==> Mixed(w, j, h[j], h[j + 1])
    ensures w.Encrypt(n) == h[7].l % Pow2(w.shift) * Pow2(w.shift) + h[7].r % Pow2(w.shift)
  {
    RoundsFrom(w, h, 7);
  }

  lemma RoundUndone(w: Network, i: nat, h: Halves)
    requires w.Fits(h)
    ensures w.Fits(w.Round(i, h)) && w.Unround(i, w.Round(i, h)) == h
    ensures w.Fits(w.Unround(i, h)) && w.Round(i, w.Unround(i, h)) == h
  {
    XorBound(h.l, w.F(i, h.r), w.shift);
    XorBound(h.r, w.F(i, h.l), w.shift);
    XorTwice(h.l, w.F(i, h.r));
    XorTwice(h.r, w.F(i, h.l));
  }

  lemma {:induction false} BackwardUndoes(w: Network, i: nat, h: Halves)
    requires w.Fits(h)
    ensures w.Fits(w.Forward(i, h)) && w.Backward(i, w.Forward(i, h)) == h
    decreases i
  {
    if i > 0 {
      BackwardUndoes(w, i - 1, h);
      RoundUndone(w, i - 1, w.Forward(i - 1, h));
    }
  }

  lemma {:induction false} ForwardUndoes(w: Network, i: nat, h: Halves)
    requires w.Fits(h)
    ensures w.Fits(w.Backward(i, h)) && w.Forward(i, w.Backward(i, h)) == h
    decreases i
  {
    if i > 0 {
      RoundUndone(w, i - 1, h);
      ForwardUndoes(w, i - 1, w.Unround(i - 1, h));
    }
  }

  lemma Scale(a: nat, b: nat, m: nat)
    requires a <= b
    ensures a * m <= b * m
  {
  }

  lemma Quotient(x: nat, m: nat)
    requires m > 0
    ensures x == (x / m) * m + x % m && x % m < m
  {
  }

  /** Quotient and remainder are what they should be. */
  lemma Divides(x: nat, m: nat, l: nat, r: nat)
    requires r < m && x == l * m + r
    ensures x / m == l && x % m == r
  {
    Quotient(x, m);
    var q: nat := x / m;
    if q < l {
      Scale(q + 1, l, m);
      assert false;
    }
    if q > l {
      Scale(l + 1, q, m);
      assert false;
    }
  }

  lemma Small(x: nat, m: nat)
    requires x < m
    ensures x % m == x
  {
    Divides(x, m, 0, x);
  }

  lemma JoinIs(w: Network, h: Halves)
    requires w.Fits(h)
    ensures w.Join(h) == h.l * w.M() + h.r
  {
    Small(h.l, w.M());
    Small(h.r, w.M());
  }

  lemma JoinBound(w: Network, h: Halves)
    requires w.Fits(h)
    ensures h.l * w.M() + h.r < w.N()
  {
    Scale(h.l + 1, w.M(), w.M());
    Distribute(h.l, 1, w.M());
    Pow2Sum(w.shift, w.shift);
  }

  lemma JoinSplit(w: Network, h: Halves)
    requires w.Fits(h)
    ensures w.Split(w.Join(h)) == h && w.Join(h) < w.N()
  {
    JoinIs(w, h);
    JoinBound(w, h);
    Divides(w.Join(h), w.M(), h.l, h.r);
    Small(h.l, w.M());
  }

  lemma QuotientSmall(n: nat, m: nat)
    requires m > 0 && n < m * m
    ensures n / m < m
  {
    Quotient(n, m);
    if n / m >= m {
      Scale(m, n / m, m);
      assert false;
    }
  }

  lemma PartsJoin(n: nat, m: nat)
    requires m > 0 && n < m * m
    ensures n / m % m % m * m + n % m % m == n
  {
    QuotientSmall(n, m);
    Quotient(n, m);
    Small(n / m, m);
    Small(n % m, m);
  }

  lemma SplitWhole(w: Network, n: nat)
    requires n < w.N()
    ensures w.Join(w.Split(n)) == n
  {
    var m := w.M();
    Pow2Sum(w.shift, w.shift);
    PartsJoin(n, m);
  }

  /** For any round function, encryption permutes [0, 2^(2 shift)), and decryption is its inverse. */
  lemma {:induction false} Inverse(w: Network, n: nat)
    requires n < w.N()
    ensures w.Encrypt(n) < w.N() && w.Decrypt(w.Encrypt(n)) == n
    ensures w.Decrypt(n) < w.N() && w.Encrypt(w.Decrypt(n)) == n
  {
    var i := w.Turns();
    var h := w.Split(n);
    SplitWhole(w, n);
    BackwardUndoes(w, i, h);
    ForwardUndoes(w, i, h);
    JoinSplit(w, w.Forward(i, h));
    JoinSplit(w, w.Backward(i, h));
  }

  // ---------------------------------------------------------------- stepping

  /** The counter is a 32-bit number. */
  const WRAP: nat := 0x1_0000_0000

  function Wrapped(s: nat): nat {
    s % WRAP
  }

  lemma WrappedSum(s: nat, k: nat)
    ensures Wrapped(Wrapped(s) + k) == Wrapped(s + k)
  {
  }

  predicate Ordered(s: nat, t: nat) {
    s <= t
  }

  /** `length` numbers from `low` on, taken from what `value` makes of a counter: one of `size` numbers. */
  datatype Range = Range(value: nat -> nat, size: nat, low: nat, length: nat) {
    /** No value comes twice among `size` counters in a row, and wrapping the counter round changes none. */
    ghost predicate Valid() {
      0 < length <= size
      && (forall s: nat {:trigger value(s)} :: value(s) < size)
      && (forall s: nat, t: nat {:trigger Ordered(s, t)} :: Ordered(s, t) && t < s + size && value(s) == value(t) ==>
                                                            s == t)
      && (forall s: nat {:trigger Wrapped(s)} :: value(Wrapped(s)) == value(s))
    }

    predicate Taken(s: nat) {
      value(s) < length
    }

    /** What `dns_k_permutor_step` returns for a counter that it takes. */
    function Number(s: nat): nat {
      value(s) + low
    }

    /** How many counters from `s` on are rejected before one is taken. */
    function Rejected(s: nat, fuel: nat): (k: nat)
      ensures k <= fuel && (k < fuel ==> Taken(s + k))
      ensures forall j :: s <= j < s + k ==> !Taken(j)
      decreases fuel
    {
      if fuel == 0 || Taken(s) then 0 else 1 + Rejected(s + 1, fuel - 1)
    }
  }

  predicate Distinct(s: seq<nat>) {
    forall i, j :: 0 <= i < j < |s| ==> s[i] != s[j]
  }

  /** Taking one of several distinct numbers away. */
  lemma TakeOut(s: seq<nat>, i: nat) returns (rest: seq<nat>)
    requires Distinct(s) && i < |s|
    ensures |rest| == |s| - 1 && Distinct(rest) && forall j :: 0 <= j < |rest| ==> rest[j] in s && rest[j] != s[i]
  {
    rest := s[..i] + s[i + 1..];
    assert forall j :: 0 <= j < i ==> rest[j] == s[j];
    assert forall j :: i <= j < |rest| ==> rest[j] == s[j + 1];
  }

  /** Distinct numbers of a range are no more than the range has. */
  lemma {:induction false} Pigeons(s: seq<nat>, lo: nat, hi: nat)
    requires lo <= hi && (forall i :: 0 <= i < |s| ==> lo <= s[i] < hi) && Distinct(s)
    ensures |s| <= hi - lo
    ensures |s| == hi - lo ==> forall v :: lo <= v < hi ==> v in s
    decreases hi - lo
  {
    assert s != [] ==> lo <= s[0] < hi;
    if lo == hi {
      if s != [] {
        assert false;
      }
    } else if exists i :: 0 <= i < |s| && s[i] == hi - 1 {
      var i: nat :| i < |s| && s[i] == hi - 1;
      var rest := TakeOut(s, i);
      forall j | 0 <= j < |rest| ensures lo <= rest[j] < hi - 1 {
        assert rest[j] in s;
      }
      Pigeons(rest, lo, hi - 1);
      if |s| == hi - lo {
        forall v | lo <= v < hi - 1 ensures v in s {
          assert v in rest;
          var j :| 0 <= j < |rest| && rest[j] == v;
        }
      }
    } else {
      Pigeons(s, lo, hi - 1);
    }
  }

  function Values(r: Range, s: nat, k: nat): (v: seq<nat>)
    ensures |v| == k && forall i :: 0 <= i < k ==> v[i] == r.value(s + i)
  {
    seq<nat>(k, (i: int) requires 0 <= i < k => r.value(s + i))
  }

  /** The loop of `dns_k_permutor_step` rejects at most as many counters as there are values outside the range. */
  lemma {:induction false} FewRejected(r: Range, s: nat)
    requires r.Valid()
    ensures r.Rejected(s, r.size) <= r.size - r.length && r.Taken(s + r.Rejected(s, r.size))
  {
    var k := r.Rejected(s, r.size);
    var v := Values(r, s, k);
    forall i, j | 0 <= i < j < k ensures v[i] != v[j] {
      assert Ordered(s + i, s + j);
    }
    forall i | 0 <= i < k ensures r.length <= v[i] < r.size {
      assert !r.Taken(s + i);
    }
    Pigeons(v, r.length, r.size);
  }

  /** One call of `dns_k_permutor_step`: its result, and the counter it leaves. */
  function StepFrom(r: Range, s: nat): (nat, nat) {
    var k := r.Rejected(s, r.size);
    (r.Number(s + k), Wrapped(s + k + 1))
  }

  datatype Numbers = Nil | Cons(first: nat, rest: Numbers)

  function ToSeq(l: Numbers): seq<nat> {
    if l == Nil then [] else [l.first] + ToSeq(l.rest)
  }

  /** The results of `count` calls. */
  function Draw(r: Range, s: nat, count: nat): Numbers
    decreases count
  {
    if count == 0 then Nil else Cons(StepFrom(r, s).0, Draw(r, StepFrom(r, s).1, count - 1))
  }

  /** Of the values at `n` counters from `s` on, those that are taken, or those that are not. */
  function Select(r: Range, s: nat, n: nat, taken: bool): Numbers
    decreases n
  {
    if n == 0 then Nil
    else if r.Taken(s) == taken then Cons(r.Number(s), Select(r, s + 1, n - 1, taken))
         else Select(r, s + 1, n - 1, taken)
  }

  lemma {:induction false} SelectHas(r: Range, s: nat, n: nat, taken: bool, v: nat) returns (j: nat)
    requires v in ToSeq(Select(r, s, n, taken))
    ensures s <= j < s + n && r.Number(j) == v && r.Taken(j) == taken
    decreases n
  {
    if r.Taken(s) == taken && r.Number(s) == v {
      j := s;
    } else {
      j := SelectHas(r, s + 1, n - 1, taken, v);
    }
  }

  lemma DistinctCons(x: nat, v: seq<nat>)
    requires Distinct(v) && x !in v
    ensures Distinct([x] + v)
  {
  }

  lemma {:induction false} SelectDistinct(r: Range, s: nat, n: nat, taken: bool)
    requires r.Valid() && n <= r.size
    ensures Distinct(ToSeq(Select(r, s, n, taken)))
    decreases n
  {
    if n > 0 {
      var rest := ToSeq(Select(r, s + 1, n - 1, taken));
      SelectDistinct(r, s + 1, n - 1, taken);
      if r.Number(s) in rest {
        var j := SelectHas(r, s + 1, n - 1, taken, r.Number(s));
        assert Ordered(s, j);
        assert false;
      }
      DistinctCons(r.Number(s), rest);
    }
  }

  lemma {:induction false} SelectSizes(r: Range, s: nat, n: nat)
    ensures |ToSeq(Select(r, s, n, true))| + |ToSeq(Select(r, s, n, false))| == n
    decreases n
  {
    if n > 0 {
      SelectSizes(r, s + 1, n - 1);
    }
  }

  /** In a window of `size` counters every number of the range comes exactly once. */
  lemma WindowCovers(r: Range, s: nat)
    requires r.Valid()
    ensures var v := ToSeq(Select(r, s, r.size, true));
            |v| == r.length && Distinct(v) && forall x :: r.low <= x < r.low + r.length <==> x in v
  {
    var n := r.size;
    var yes, no := ToSeq(Select(r, s, n, true)), ToSeq(Select(r, s, n, false));
    SelectSizes(r, s, n);
    SelectDistinct(r, s, n, true);
    SelectDistinct(r, s, n, false);
    forall i | 0 <= i < |yes| ensures r.low <= yes[i] < r.low + r.length {
      var j := SelectHas(r, s, n, true, yes[i]);
    }
    forall i | 0 <= i < |no| ensures r.low + r.length <= no[i] < r.low + n {
      var j := SelectHas(r, s, n, false, no[i]);
    }
    Pigeons(yes, r.low, r.low + r.length);
    Pigeons(no, r.low + r.length, r.low + n);
  }

  lemma {:induction false} FirstTaken(r: Range, s: nat, fuel: nat, k: nat)
    requires k < fuel && r.Taken(s + k) && forall j :: s <= j < s + k ==> !r.Taken(j)
    ensures r.Rejected(s, fuel) == k
  {
    var x := r.Rejected(s, fuel);
  }

  lemma Shifted(r: Range, s: nat, k: nat)
    requires r.Valid()
    ensures r.value(Wrapped(s) + k) == r.value(s + k)
  {
    WrappedSum(s, k);
    assert r.value(Wrapped(Wrapped(s) + k)) == r.value(Wrapped(s) + k);
    assert r.value(Wrapped(s + k)) == r.value(s + k);
  }

  lemma SameStep(r: Range, s: nat)
    requires r.Valid()
    ensures r.Rejected(Wrapped(s), r.size) == r.Rejected(s, r.size)
  {
    var k := r.Rejected(s, r.size);
    FewRejected(r, s);
    Shifted(r, s, k);
    forall j | Wrapped(s) <= j < Wrapped(s) + k ensures !r.Taken(j) {
      Shifted(r, s, j - Wrapped(s));
      assert !r.Taken(s + (j - Wrapped(s)));
    }
    FirstTaken(r, Wrapped(s), r.size, k);
  }

  lemma StepIs(r: Range, s: nat, k: nat)
    requires k == r.Rejected(Wrapped(s), r.size) && r.value(Wrapped(s) + k) == r.value(s + k)
    ensures StepFrom(r, Wrapped(s)) == (r.Number(s + k), Wrapped(s + k + 1))
  {
    WrappedSum(s, k + 1);
  }

  lemma DrawCons(r: Range, s: nat, k: nat, count: nat)
    requires r.Valid() && k == r.Rejected(s, r.size) && count > 0
    ensures Draw(r, Wrapped(s), count) == Cons(r.Number(s + k), Draw(r, Wrapped(s + k + 1), count - 1))
  {
    SameStep(r, s);
    Shifted(r, s, k);
    StepIs(r, s, k);
  }

  lemma {:induction false} SkipRejected(r: Range, s: nat, n: nat, k: nat)
    requires r.Taken(s + k) && (forall j :: s <= j < s + k ==> !r.Taken(j)) && Select(r, s, n, true) != Nil
    ensures k < n && Select(r, s, n, true) == Cons(r.Number(s + k), Select(r, s + k + 1, n - k - 1, true))
    decreases n
  {
    if k > 0 {
      assert !r.Taken(s);
      SkipRejected(r, s + 1, n - 1, k - 1);
    }
  }

  function Length(l: Numbers): (n: nat)
    ensures n == |ToSeq(l)|
  {
    if l == Nil then 0 else 1 + Length(l.rest)
  }

  /** The next value taken is the next result. */
  lemma NextDraw(r: Range, s: nat, n: nat, all: Numbers) returns (s': nat, n': nat)
    requires r.Valid() && all == Select(r, s, n, true) != Nil
    ensures n' < n && all.rest == Select(r, s', n', true)
    ensures Draw(r, Wrapped(s), Length(all)) == Cons(all.first, Draw(r, Wrapped(s'), Length(all.rest)))
  {
    var k := r.Rejected(s, r.size);
    FewRejected(r, s);
    SkipRejected(r, s, n, k);
    s', n' := s + k + 1, n - k - 1;
    DrawCons(r, s, k, Length(all));
    assert all == Cons(r.Number(s + k), Select(r, s', n', true));
  }

  /** The results of successive calls are the taken values, in the counter's order. */
  lemma {:induction false} DrawsSelected(r: Range, s: nat, n: nat, all: Numbers)
    requires r.Valid() && all == Select(r, s, n, true)
    ensures Draw(r, Wrapped(s), Length(all)) == all
    decreases n
  {
    if all != Nil {
      var s', n' := NextDraw(r, s, n, all);
      DrawsSelected(r, s', n', all.rest);
    }
  }

  /**
   The generator is a full cycle: from whatever counter, `length` calls in a row give every number
   from `low` to `low + length - 1` exactly once.
   */
  lemma {:induction false} FullCycle(r: Range, s: nat)
    requires r.Valid() && s < WRAP
    ensures var d := ToSeq(Draw(r, s, r.length));
            |d| == r.length && Distinct(d) && forall x :: r.low <= x < r.low + r.length <==> x in d
  {
    assert Wrapped(s) == s;
    WindowCovers(r, s);
    DrawsSelected(r, s, r.size, Select(r, s, r.size, true));
  }

  // ---------------------------------------------------------------- the network's range

  lemma Residues(s: nat, t: nat, n: nat)
    requires n > 0 && s <= t < s + n && s % n == t % n
    ensures s == t
  {
    Quotient(s, n);
    Quotient(t, n);
    if s / n < t / n {
      Scale(s / n + 1, t / n, n);
    } else if s / n > t / n {
      Scale(t / n + 1, s / n, n);
      assert false;
    }
  }

  lemma {:induction false} Powers(a: nat)
    requires a <= 32
    ensures WRAP % Pow2(a) == 0
  {
    assert Pow2(8) == 256;
    Pow2Sum(8, 8);
    Pow2Sum(16, 16);
    assert Pow2(32) == WRAP;
    Pow2Sum(32 - a, a);
    Divides(WRAP, Pow2(a), Pow2(32 - a), 0);
  }

  lemma Multiple(s: nat, w: nat, n: nat)
    requires n > 0 && w > 0 && w % n == 0
    ensures s % w % n == s % n
  {
    Quotient(s, w);
    Quotient(w, n);
    Quotient(s % w, n);
    var a: nat, b: nat, c: nat := s / w, w / n, s % w / n;
    assert a * w == a * b * n;
    assert s == (a * b + c) * n + s % w % n;
    Divides(s, n, a * b + c, s % w % n);
  }

  /** What the counter `s` stands for; only its low bits count. */
  function Ranged(w: Network, low: nat, length: nat): Range {
    Range((s: nat) => w.Encrypt(s % w.N()), w.N(), low, length)
  }

  lemma SameResidue(w: Network, s: nat)
    requires w.shift <= 16
    ensures Wrapped(s) % w.N() == s % w.N()
  {
    Powers(2 * w.shift);
    Multiple(s, WRAP, w.N());
  }

  lemma RangedInjective(w: Network, s: nat, t: nat)
    requires s <= t < s + w.N() && w.Encrypt(s % w.N()) == w.Encrypt(t % w.N())
    ensures s == t
  {
    var n := w.N();
    Quotient(s, n);
    Quotient(t, n);
    Inverse(w, s % n);
    Inverse(w, t % n);
    Residues(s, t, n);
  }

  /** A network of up to 32 bits is such a range, for any round function. */
  lemma {:induction false} NetworkIsRange(w: Network, low: nat, length: nat)
    requires w.shift <= 16 && 0 < length <= w.N()
    ensures Ranged(w, low, length).Valid()
  {
    var r, n := Ranged(w, low, length), w.N();
    forall s: nat ensures r.value(s) < n {
      Quotient(s, n);
      Inverse(w, s % n);
    }
    forall s: nat, t: nat | Ordered(s, t) && t < s + n && r.value(s) == r.value(t) ensures s == t {
      RangedInjective(w, s, t);
    }
    forall s: nat ensures r.value(Wrapped(s)) == r.value(s) {
      SameResidue(w, s);
    }
  }

  // ---------------------------------------------------------------- the code

  lemma TopPower()
    ensures Pow2(31) == 0x8000_0000
  {
    assert Pow2(15) == 0x8000 && Pow2(16) == 0x1_0000;
    Pow2Sum(16, 15);
  }

  lemma ShortWidth(n: nat, i: nat)
    requires n <= 0x8000_0000 && (i > 0 ==> Pow2(i - 1) < n)
    ensures i <= 31
  {
    if i > 31 {
      PowGrows(31, i - 1);
      TopPower();
      assert false;
    }
  }

  /** The number of doublings from 1 to at least `n`. */
  method PowOf(n: nat) returns (i: nat)
    requires n <= 0x8000_0000
    ensures n <= Pow2(i) && i <= 31 && (i > 0 ==> Pow2(i - 1) < n)
  {
    var m: nat := 1;
    i := 0;
    while m < n
      invariant m == Pow2(i) && (i > 0 ==> Pow2(i - 1) < n)
      decreases n - m
    {
      m := 2 * m;
      i := i + 1;
    }
    ShortWidth(n, i);
  }

  lemma Regroup(q: nat, m: nat, a: nat, b: nat)
    ensures q * (m * m) + (a * m + b) == (q * m + a) * m + b
  {
    assert q * (m * m) == q * m * m;
    assert (q * m + a) * m == q * m * m + a * m;
  }

  lemma ModShift(q: nat, m: nat, a: nat)
    requires m > 0
    ensures (q * m + a) % m == a % m
  {
    Quotient(a, m);
    Distribute(q, a / m, m);
    Divides(q * m + a, m, q + a / m, a % m);
  }

  lemma SplitShift(q: nat, m: nat, t: nat)
    requires m > 0
    ensures (q * (m * m) + t) / m == q * m + t / m && (q * (m * m) + t) % m == t % m
  {
    Quotient(t, m);
    Regroup(q, m, t / m, t % m);
    Divides(q * (m * m) + t, m, q * m + t / m, t % m);
  }

  lemma SameSplit(m: nat, n: nat)
    requires m > 0
    ensures n / m % m == n % (m * m) / m % m && n % m == n % (m * m) % m
  {
    var t: nat, q: nat := n % (m * m), n / (m * m);
    Quotient(n, m * m);
    SplitShift(q, m, t);
    ModShift(q, m, t / m);
  }

  /** Encryption looks at the low bits of its argument only. */
  lemma LowBits(w: Network, n: nat)
    ensures w.Encrypt(n % w.N()) == w.Encrypt(n)
  {
    Pow2Sum(w.shift, w.shift);
    SameSplit(w.M(), n);
  }

  lemma CounterValue(w: Network, r: Range, s: nat, k: nat)
    requires r.Valid() && r == Ranged(w, r.low, r.length)
    ensures w.Encrypt(Wrapped(s + k)) == r.value(s + k)
  {
    LowBits(w, Wrapped(s + k));
    assert r.value(Wrapped(s + k)) == w.Encrypt(Wrapped(s + k) % w.N());
  }

  /** After `i` rounds from `h` on. */
  predicate Comes(w: Network, i: nat, h: Halves, l: nat, r: nat) {
    w.Forward(i, h) == Halves(l, r)
  }

  lemma NextRound(w: Network, i: nat, h: Halves, l: nat, r: nat)
    requires Comes(w, i, h, l, r)
    ensures Comes(w, i + 1, h, r, Xor(l, w.F(i, r)))
  {
  }

  /** Undoing the first `i` rounds leads to `h`. */
  predicate Leads(w: Network, i: nat, l: nat, r: nat, h: Halves) {
    w.Backward(i, Halves(l, r)) == h
  }

  lemma LastRound(w: Network, i: nat, l: nat, r: nat, h: Halves)
    requires Leads(w, i, l, r, h)
    ensures if i == 0 then h == Halves(l, r) else Leads(w, i - 1, Xor(r, w.F(i - 1, l)), l, h)
  {
  }

  class Permutor {
    var stepi: nat
    const length: nat
    const limit: nat
    const shift: nat
    const rounds: nat
    const f: (nat, nat) -> nat

    ghost predicate Valid()
      reads this`stepi
    {
      stepi < WRAP && shift <= 16 && 0 < length <= Net().N() && length <= limit + 1 && rounds == 8
    }

    ghost function Net(): Network {
      Network(f, shift, rounds)
    }

    ghost function Results(): Range
      requires length <= limit + 1
    {
      Ranged(Net(), limit + 1 - length, length)
    }

    /** `dns_k_permutor_init`; `f` is the round function that the random key picks. */
    constructor (low: nat, high: nat, f: (nat, nat) -> nat)
      requires low <= high < WRAP && high - low < 0x8000_0000
      ensures Valid() && stepi == 0 && Results().low == low && Results().length == high - low + 1
    {
      stepi := 0;
      length := high - low + 1;
      limit := high;
      var width := PowOf(high - low + 1);
      shift := (width + width % 2) / 2;
      rounds := 8;
      this.f := f;
    }

    /** `dns_k_permutor_E`: two-element buffers, used in turn. */
    method Encrypt(n: nat) returns (c: nat)
      requires Valid()
      ensures c == Net().Encrypt(n)
    {
      var l, r := new nat[2], new nat[2];
      ghost var w := Net();
      var m := Pow2(shift);
      var i := 0;
      l[0], r[0] := n / m % m, n % m;
      var more := true;
      while more
        invariant l.Length == 2 && r.Length == 2 && 0 <= i <= rounds - 1 && more == (i < rounds - 1)
        invariant Comes(w, i, w.Split(n), l[i % 2], r[i % 2])
        decreases rounds - i
      {
        NextRound(w, i, w.Split(n), l[i % 2], r[i % 2]);
        l[(i + 1) % 2] := r[i % 2];
        r[(i + 1) % 2] := Xor(l[i % 2], f(i, r[i % 2]) % m);
        i := i + 1;
        more := i < rounds - 1;
      }
      c := l[i % 2] % m * m + r[i % 2] % m;
    }

    /** `dns_k_permutor_D`. */
    method Decrypt(c: nat) returns (n: nat)
      requires Valid()
      ensures n == Net().Decrypt(c)
    {
      var l, r := new nat[2], new nat[2];
      ghost var w := Net();
      var m := Pow2(shift);
      var i: nat := rounds - 1;
      ghost var h := w.Backward(i, w.Split(c));
      l[i % 2], r[i % 2] := c / m % m, c % m;
      var more := true;
      while more
        invariant l.Length == 2 && r.Length == 2 && 0 <= i <= rounds - 1 && more == (i > 0)
        invariant Leads(w, i, l[i % 2], r[i % 2], h)
        decreases i
      {
        LastRound(w, i, l[i % 2], r[i % 2], h);
        i := i - 1;
        var a, b := l[(i + 1) % 2], r[(i + 1) % 2];
        r[i % 2] := a;
        l[i % 2] := Xor(b, f(i, a) % m);
        more := i > 0;
      }
      LastRound(w, 0, l[0], r[0], h);
      n := l[i % 2] % m * m + r[i % 2] % m;
    }

    /** The values of `r` are what the network makes of the counter. */
    ghost predicate Serves(r: Range) {
      r.length == length && r.low == limit + 1 - length
      && forall j: nat {:trigger Net().Encrypt(Wrapped(j))} :: Net().Encrypt(Wrapped(j)) == r.value(j)
    }

    lemma ServedRange() returns (r: Range)
      requires Valid()
      ensures r == Results() && r.Valid() && Serves(r)
    {
      r := Results();
      NetworkIsRange(Net(), limit + 1 - length, length);
      forall j: nat ensures Net().Encrypt(Wrapped(j)) == r.value(j) {
        CounterValue(Net(), r, j, 0);
      }
    }

    /** `dns_k_permutor_E(p, p->stepi++)`. */
    method Next(ghost r: Range, ghost j: nat) returns (n: nat)
      requires Valid() && length <= limit + 1 && Serves(r) && stepi == Wrapped(j)
      modifies this`stepi
      ensures Valid() && n == r.value(j) && stepi == Wrapped(j + 1)
    {
      n := Encrypt(stepi);
      WrappedSum(j, 1);
      stepi := (stepi + 1) % WRAP;
    }

    method Loop(ghost r: Range, ghost s: nat) returns (n: nat)
      requires Valid() && length <= limit + 1 && Serves(r) && r.Valid() && stepi == s == Wrapped(s)
      modifies this`stepi
      ensures Valid() && n < length && (n + r.low, stepi) == StepFrom(r, s)
    {
      FewRejected(r, s);
      ghost var k := r.Rejected(s, r.size);
      ghost var tries: nat := 0;
      n := 0;
      var more := true;
      while more
        invariant Valid() && stepi == Wrapped(s + tries) && tries <= k + 1
        invariant if more then tries <= k else tries == k + 1 && n == r.value(s + k)
        decreases k + 1 - tries
      {
        n := Next(r, s + tries);
        assert r.Taken(s + tries) <==> tries == k;
        tries := tries + 1;
        more := n >= length;
      }
    }

    /** `dns_k_permutor_step`. */
    method Step() returns (x: nat)
      requires Valid()
      modifies this`stepi
      ensures Valid() && (x, stepi) == StepFrom(Results(), old(stepi))
      ensures limit + 1 - length <= x <= limit
    {
      ghost var r := ServedRange();
      var n := Loop(r, stepi);
      x := n + (limit + 1 - length);
    }
  }
}
