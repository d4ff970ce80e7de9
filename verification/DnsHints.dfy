/**
 The name servers of a zone, and the iteration over them by priority and shuffled index (`dns_hints`).
 */
module DnsHints {
  import opened Bits
  import opened DnsSelect
  import opened DnsShuffle

  const UINT: int := 0x1_0000_0000

  /** A difference of unsigned numbers, taken as a signed one. */
  function Difference(a: nat, b: nat): int {
    var d := (a - b) % UINT;
    if d >= 0x8000_0000 then d - UINT else d
  }

  /** Numbers whose differences have the right sign both ways. */
  predicate Near(a: nat, b: nat) {
    -0x8000_0000 < a - b < 0x8000_0000
  }

  lemma DifferenceSign(a: nat, b: nat)
    requires a < UINT && b < UINT
    ensures (Difference(a, b) < 0 <==> a < b) && (Difference(a, b) > 0 <==> a > b)
            <==> -0x8000_0000 <= a - b < 0x8000_0000
    ensures Near(a, b) ==> Difference(a, b) == a - b
  {
  }

  /** Sixteen-bit values, distinct for distinct indices. */
  ghost predicate Scatters(shuffled: nat -> nat) {
    (forall x: nat {:trigger shuffled(x)} :: shuffled(x) < 65536)
    && forall x: nat, y: nat {:trigger shuffled(x), shuffled(y)} :: x < 16 && y < 16 && shuffled(x) == shuffled(y) ==>
                                                                    x == y
  }

  function Shuffler(seed: nat): nat -> nat {
    (x: nat) => Shuffle(x, seed)
  }

  lemma ShufflerScatters(seed: nat)
    ensures Scatters(Shuffler(seed))
  {
    forall x: nat ensures Shuffler(seed)(x) < 65536 {
      ShuffleBound(x, seed);
    }
    forall x: nat, y: nat | x < 16 && y < 16 && Shuffler(seed)(x) == Shuffler(seed)(y) ensures x == y {
      ShuffleInjective(x, y, seed);
    }
  }

  /** `dns_hints_i_cmp`, for the priorities `p`. */
  function Compare(p: seq<nat>, shuffled: nat -> nat): Sort {
    (a: nat, b: nat) =>
      if a >= |p| || b >= |p| then 0
      else if Difference(p[a], p[b]) != 0 then Difference(p[a], p[b])
      else shuffled(a) - shuffled(b)
  }

  function Key(p: seq<nat>, shuffled: nat -> nat): nat -> int {
    (a: nat) => if a >= |p| then 0 else p[a] * 65536 + shuffled(a)
  }

  /** The indices from `i` to `n - 1`. */
  function Upto(i: nat, n: nat): List
    decreases n - i
  {
    if i >= n then Nil else Cons(i, Upto(i + 1, n))
  }

  lemma {:induction false} UptoHas(i: nat, n: nat, x: nat)
    ensures Has(Upto(i, n), x) <==> i <= x < n
    decreases n - i
  {
    if i < n {
      UptoHas(i + 1, n, x);
    }
  }

  /** Any two priorities differ by less than 2^31. */
  ghost predicate Close(p: seq<nat>) {
    (forall i :: 0 <= i < |p| ==> p[i] < UINT) && forall i, j :: 0 <= i < |p| && 0 <= j < |p| ==> Near(p[i], p[j])
  }

  /** Close priorities rank the servers, ties broken by the shuffle. */
  lemma ServersRank(p: seq<nat>, shuffled: nat -> nat)
    requires |p| <= 16 && Close(p) && Scatters(shuffled)
    ensures Ranked(Upto(0, |p|), Compare(p, shuffled))
    ensures forall x: nat, y: nat {:trigger Ties(x, y, Compare(p, shuffled))} ::
              x < |p| && y < |p| && Ties(x, y, Compare(p, shuffled)) ==> x == y
  {
    var l, sort, key := Upto(0, |p|), Compare(p, shuffled), Key(p, shuffled);
    forall x: nat, y: nat | Has(l, x) && Has(l, y)
      ensures (sort(x, y) < 0 <==> key(x) < key(y)) && (sort(x, y) > 0 <==> key(x) > key(y))
              && (key(x) == key(y) ==> x == y)
    {
      UptoHas(0, |p|, x);
      UptoHas(0, |p|, y);
      DifferenceSign(p[x], p[y]);
      KeyOrder(p[x], p[y], shuffled(x), shuffled(y));
      KeyOrder(p[y], p[x], shuffled(y), shuffled(x));
    }
    KeysRank(l, sort, key);
    forall x: nat, y: nat | x < |p| && y < |p| && Ties(x, y, sort) ensures x == y {
      UptoHas(0, |p|, x);
      UptoHas(0, |p|, y);
    }
  }

  /** Results rise in priority, whatever the shuffle. */
  ghost predicate ByPriority(l: List, p: seq<nat>) {
    l.Cons? && l.tail.Cons? ==>
      l.head < |p| && l.tail.head < |p| && p[l.head] <= p[l.tail.head] && ByPriority(l.tail, p)
  }

  lemma {:induction false} RisingByPriority(l: List, p: seq<nat>, shuffled: nat -> nat)
    requires Rising(l, Compare(p, shuffled)) && Close(p) && forall x: nat {:trigger Has(l, x)} :: Has(l, x) ==> x < |p|
    ensures ByPriority(l, p)
  {
    if l.Cons? && l.tail.Cons? {
      assert Has(l, l.head) && Has(l.tail, l.tail.head);
      assert Has(l, l.tail.head);
      DifferenceSign(p[l.tail.head], p[l.head]);
      forall x: nat | Has(l.tail, x) ensures x < |p| {
        assert Has(l, x);
      }
      RisingByPriority(l.tail, p, shuffled);
    }
  }

  /** Every server comes exactly once, in non-decreasing priority, and then nothing comes. */
  ghost predicate Complete(v: List, p: seq<nat>, sort: Sort) {
    Rising(v, sort) && ByPriority(v, p) && forall x: nat {:trigger Has(v, x)} :: Has(v, x) <==> x < |p|
  }

  /** The iteration is complete for close priorities and any shuffle. */
  lemma ScatteredVisitAll(p: seq<nat>, shuffled: nat -> nat)
    requires |p| <= 16 && Close(p) && Scatters(shuffled)
    ensures Ranked(Upto(0, |p|), Compare(p, shuffled))
    ensures Complete(Visit(Upto(0, |p|), Compare(p, shuffled)), p, Compare(p, shuffled))
    ensures Stops(Upto(0, |p|), Compare(p, shuffled), |p|)
  {
    var l, sort := Upto(0, |p|), Compare(p, shuffled);
    ServersRank(p, shuffled);
    var v := Visit(l, sort);
    VisitsAll(l, sort, 0);
    forall x: nat ensures Has(v, x) <==> x < |p| {
      VisitsAll(l, sort, x);
      UptoHas(0, |p|, x);
      if x < |p| {
        ChosenTies(l, sort, x);
        UptoHas(0, |p|, Chosen(l, x, sort));
      }
    }
    RisingByPriority(v, p, shuffled);
    UptoHas(0, |p|, |p|);
    RankedStops(l, sort, |p|);
  }

  /** The iteration is complete for close priorities and any seed. */
  lemma {:induction false} HintsVisitAll(p: seq<nat>, seed: nat)
    requires |p| <= 16 && Close(p)
    ensures Ranked(Upto(0, |p|), Compare(p, Shuffler(seed)))
    ensures Complete(Visit(Upto(0, |p|), Compare(p, Shuffler(seed))), p, Compare(p, Shuffler(seed)))
    ensures Stops(Upto(0, |p|), Compare(p, Shuffler(seed)), |p|)
  {
    ShufflerScatters(seed);
    ScatteredVisitAll(p, Shuffler(seed));
  }

  lemma AboveIs(p: seq<nat>, seed: nat, x: nat, y: nat)
    requires Close(p) && x < |p| && y < |p| && Compare(p, Shuffler(seed))(y, x) > 0
    ensures p[x] < p[y] || (p[x] == p[y] && Shuffle(x, seed) < Shuffle(y, seed))
  {
    DifferenceSign(p[y], p[x]);
  }

  /** Of two servers the later one has the larger priority, or the same and a larger shuffled index. */
  lemma {:induction false} HintsInOrder(p: seq<nat>, seed: nat, a: nat, b: nat)
    requires |p| <= 16 && Close(p) && a < b && Result(Upto(0, |p|), Compare(p, Shuffler(seed)), |p|, b) != |p|
    ensures var l, sort := Upto(0, |p|), Compare(p, Shuffler(seed));
            var x, y := Result(l, sort, |p|, a), Result(l, sort, |p|, b);
            x < |p| && y < |p| && (p[x] < p[y] || (p[x] == p[y] && Shuffle(x, seed) < Shuffle(y, seed)))
  {
    var l, sort := Upto(0, |p|), Compare(p, Shuffler(seed));
    ShufflerScatters(seed);
    ServersRank(p, Shuffler(seed));
    UptoHas(0, |p|, |p|);
    ResultsRise(l, sort, |p|, a, b);
    var x, y := Result(l, sort, |p|, a), Result(l, sort, |p|, b);
    UptoHas(0, |p|, x);
    UptoHas(0, |p|, y);
    AboveIs(p, seed, x, y);
  }

  // ---------------------------------------------------------------- priorities far apart

  /** The first two results and the end, in non-decreasing priority: all that can be asked of two servers. */
  ghost predicate BothInOrder(p: seq<nat>, sort: Sort)
    requires |p| == 2
  {
    var l := Upto(0, 2);
    var x, y := Result(l, sort, 2, 0), Result(l, sort, 2, 1);
    x < 2 && y < 2 && x != y && p[x] <= p[y] && Result(l, sort, 2, 2) == 2
  }

  lemma TwoServers(sort: Sort)
    requires sort(0, 0) == 0 && sort(1, 1) == 0
    ensures var l, x := Upto(0, 2), if sort(1, 0) < 0 then 1 else 0;
            Result(l, sort, 2, 0) == x && Next(l, x, sort, 2) == (if sort(1 - x, x) > 0 then 1 - x else 2)
            && Next(l, 1 - x, sort, 2) == (if sort(x, 1 - x) > 0 then x else 2)
  {
    assert Upto(2, 2) == Nil && Upto(1, 2) == Cons(1, Nil) && Upto(0, 2) == Cons(0, Cons(1, Nil));
    assert Pick(0, Cons(1, Nil), sort) == if sort(1, 0) < 0 then 1 else 0;
    assert forall z: nat :: Above(Nil, z, sort) == Nil;
    assert forall z: nat :: Above(Cons(1, Nil), z, sort) == if sort(1, z) > 0 then Cons(1, Nil) else Nil;
  }

  lemma TwoScattered(p: seq<nat>, shuffled: nat -> nat)
    requires |p| == 2 && p[0] < UINT && p[1] < UINT && Scatters(shuffled)
    ensures BothInOrder(p, Compare(p, shuffled)) <==> Near(p[0], p[1])
  {
    var sort, l := Compare(p, shuffled), Upto(0, 2);
    DifferenceSign(p[0], p[1]);
    DifferenceSign(p[1], p[0]);
    assert shuffled(0) != shuffled(1);
    TwoServers(sort);
    var x := Result(l, sort, 2, 0);
    assert Result(l, sort, 2, 1) == Next(l, x, sort, 2);
    var y := Result(l, sort, 2, 1);
    assert Result(l, sort, 2, 2) == if y == 2 then 2 else Next(l, y, sort, 2);
  }

  /**
   Two servers come once each and in the order of their priorities exactly when these differ by less than 2^31.
   If they are further apart, the larger comes first and they come in turns for ever; at 2^31 the first
   server never comes.
   */
  lemma {:induction false} TwoInOrder(p: seq<nat>, seed: nat)
    requires |p| == 2 && p[0] < UINT && p[1] < UINT
    ensures BothInOrder(p, Compare(p, Shuffler(seed))) <==> Near(p[0], p[1])
  {
    ShufflerScatters(seed);
    TwoScattered(p, Shuffler(seed));
  }

  /**
   Among any number of servers: behind one whose priority is more than 2^31 above another's something always comes, so
   that the servers cannot come in order and stop with the largest.
   */
  lemma LargestNotLast(p: seq<nat>, shuffled: nat -> nat, a: nat, b: nat)
    requires a < |p| && b < |p| && p[a] < UINT && p[b] < UINT && p[b] > p[a] + 0x8000_0000
    ensures Next(Upto(0, |p|), b, Compare(p, shuffled), |p|) < |p|
  {
    var l, sort := Upto(0, |p|), Compare(p, shuffled);
    UptoHas(0, |p|, a);
    assert Difference(p[a], p[b]) == p[a] - p[b] + UINT;
    AboveHas(l, b, sort, a);
    assert Above(l, b, sort).Cons?;
    FirstHas(Above(l, b, sort), sort, |p|);
    AboveHas(l, b, sort, Next(l, b, sort, |p|));
    UptoHas(0, |p|, Next(l, b, sort, |p|));
  }

  /** The first results are all the servers, in non-decreasing priority, and then nothing comes. */
  ghost predicate InOrder(p: seq<nat>, sort: Sort) {
    var l, n := Upto(0, |p|), |p|;
    (forall x :: 0 <= x < n ==> Comes(l, sort, n, x))
    && (forall k {:trigger Result(l, sort, n, k)} :: 0 <= k < n ==> Result(l, sort, n, k) < n)
    && (forall j, k {:trigger Result(l, sort, n, j), Result(l, sort, n, k)} :: 0 <= j <= k < n ==>
          Result(l, sort, n, j) < n && Result(l, sort, n, k) < n
            && p[Result(l, sort, n, j)] <= p[Result(l, sort, n, k)])
    && Result(l, sort, n, n) == n
  }

  /** The server is one of the first `n` results. */
  ghost predicate Comes(l: List, sort: Sort, n: nat, x: nat) {
    exists k :: 0 <= k < n && Result(l, sort, n, k) == x
  }

  lemma LastIsLargest(p: seq<nat>, sort: Sort, b: nat)
    requires b < |p| && InOrder(p, sort)
    ensures var last := Result(Upto(0, |p|), sort, |p|, |p| - 1); last < |p| && p[b] <= p[last]
    ensures Next(Upto(0, |p|), Result(Upto(0, |p|), sort, |p|, |p| - 1), sort, |p|) == |p|
  {
    var l, n := Upto(0, |p|), |p|;
    assert Comes(l, sort, n, b);
    var k :| 0 <= k < n && Result(l, sort, n, k) == b;
    var last := Result(l, sort, n, n - 1);
    assert Result(l, sort, n, k) < n && last < n && p[Result(l, sort, n, k)] <= p[last];
    assert Result(l, sort, n, n) == Next(l, last, sort, n);
  }

  /** If two priorities differ by more than 2^31, the servers do not come in order and stop. */
  lemma {:induction false} FarApart(p: seq<nat>, shuffled: nat -> nat, a: nat, b: nat)
    requires a < |p| && b < |p| && p[b] > p[a] + 0x8000_0000 && forall i :: 0 <= i < |p| ==> p[i] < UINT
    ensures !InOrder(p, Compare(p, shuffled))
  {
    if InOrder(p, Compare(p, shuffled)) {
      LastIsLargest(p, Compare(p, shuffled), b);
      LargestNotLast(p, shuffled, a, Result(Upto(0, |p|), Compare(p, shuffled), |p|, |p| - 1));
    }
  }

  /** Keys rise from each element to the next. */
  predicate Climbs(l: List, key: nat -> int) {
    l.Cons? && l.tail.Cons? ==> key(l.head) < key(l.tail.head) && Climbs(l.tail, key)
  }

  lemma {:induction false} HeadIsLeast(l: List, key: nat -> int, x: nat)
    requires Climbs(l, key) && l.Cons? && Has(l.tail, x)
    ensures key(l.head) < key(x)
    decreases l
  {
    if l.tail.Cons? && x != l.tail.head {
      HeadIsLeast(l.tail, key, x);
    }
  }

  lemma {:induction false} RisingClimbs(l: List, p: seq<nat>, shuffled: nat -> nat)
    requires Rising(l, Compare(p, shuffled)) && Close(p) && Scatters(shuffled)
    requires forall x: nat {:trigger Has(l, x)} :: Has(l, x) ==> x < |p|
    ensures Climbs(l, Key(p, shuffled))
  {
    if l.Cons? && l.tail.Cons? {
      var a, b := l.head, l.tail.head;
      assert Has(l, a) && Has(l.tail, b);
      assert Has(l, b);
      DifferenceSign(p[b], p[a]);
      KeyOrder(p[b], p[a], shuffled(b), shuffled(a));
      KeyOrder(p[a], p[b], shuffled(a), shuffled(b));
      forall x: nat | Has(l.tail, x) ensures x < |p| {
        assert Has(l, x);
      }
      RisingClimbs(l.tail, p, shuffled);
    }
  }

  function Elements(l: List): (s: set<nat>)
    ensures forall x: nat :: x in s <==> Has(l, x)
  {
    if l == Nil then {} else {l.head} + Elements(l.tail)
  }

  lemma {:induction false} ClimbsSize(l: List, key: nat -> int)
    requires Climbs(l, key)
    ensures |Elements(l)| == Size(l)
  {
    if l.Cons? {
      ClimbsSize(l.tail, key);
      if Has(l.tail, l.head) {
        HeadIsLeast(l, key, l.head);
      }
    }
  }

  lemma {:induction false} UptoSize(i: nat, n: nat)
    requires i <= n
    ensures |Elements(Upto(i, n))| == n - i
    decreases n - i
  {
    if i < n {
      UptoSize(i + 1, n);
      UptoHas(i + 1, n, i);
    }
  }

  lemma {:induction false} HasNth(l: List, x: nat) returns (k: nat)
    requires Has(l, x)
    ensures k < Size(l) && Nth(l, k) == x
  {
    k := 0;
    if x != l.head {
      var j := HasNth(l.tail, x);
      k := j + 1;
    }
  }

  lemma {:induction false} NthHas(l: List, k: nat)
    requires k < Size(l)
    ensures Has(l, Nth(l, k))
  {
    if k > 0 {
      NthHas(l.tail, k - 1);
    }
  }

  lemma {:induction false} NthByPriority(l: List, p: seq<nat>, j: nat, k: nat)
    requires ByPriority(l, p) && j <= k < Size(l) && forall x: nat {:trigger Has(l, x)} :: Has(l, x) ==> x < |p|
    ensures Nth(l, j) < |p| && Nth(l, k) < |p| && p[Nth(l, j)] <= p[Nth(l, k)]
    decreases l
  {
    NthHas(l, j);
    NthHas(l, k);
    if k > 0 {
      assert Has(l, l.tail.head);
      forall x: nat | Has(l.tail, x) ensures x < |p| {
        assert Has(l, x);
      }
      NthByPriority(l.tail, p, if j > 0 then j - 1 else 0, k - 1);
    }
  }

  lemma ResultIsNth(l: List, sort: Sort, n: nat, v: List, k: nat)
    requires Ranked(l, sort) && v == Visit(l, sort) && Size(v) == n && !Has(l, n) && k <= n
    ensures Result(l, sort, n, k) == if k < n then Nth(v, k) else n
  {
    ResultsAre(l, sort, n, k, v);
    if k < n {
      DropStep(v, k);
    } else {
      DropAll(v);
    }
  }

  /** All servers in a list in which keys rise: as many as there are. */
  lemma AllSize(p: seq<nat>, v: List, key: nat -> int)
    requires Climbs(v, key) && forall x: nat {:trigger Has(v, x)} :: Has(v, x) <==> x < |p|
    ensures Size(v) == |p|
  {
    ClimbsSize(v, key);
    UptoSize(0, |p|);
    forall x: nat ensures x in Elements(v) <==> x in Elements(Upto(0, |p|)) {
      UptoHas(0, |p|, x);
    }
    assert Elements(v) == Elements(Upto(0, |p|));
  }

  /** The results, one after another, are the list `v`. */
  ghost predicate Listed(p: seq<nat>, sort: Sort, v: List) {
    Size(v) == |p| && forall k: nat {:trigger Result(Upto(0, |p|), sort, |p|, k)} ::
      k <= |p| ==> Result(Upto(0, |p|), sort, |p|, k) == if k < |p| then Nth(v, k) else |p|
  }

  lemma ListedInOrder(p: seq<nat>, sort: Sort, v: List)
    requires Complete(v, p, sort) && Listed(p, sort, v)
    ensures InOrder(p, sort)
  {
    var l, n := Upto(0, |p|), |p|;
    forall x | 0 <= x < n ensures Comes(l, sort, n, x) {
      var k := HasNth(v, x);
      assert Result(l, sort, n, k) == x;
    }
    forall j, k | 0 <= j <= k < n
      ensures Result(l, sort, n, j) < n && Result(l, sort, n, k) < n
              && p[Result(l, sort, n, j)] <= p[Result(l, sort, n, k)]
    {
      NthByPriority(v, p, j, k);
    }
  }

  lemma CloseListed(p: seq<nat>, shuffled: nat -> nat) returns (v: List)
    requires |p| <= 16 && Close(p) && Scatters(shuffled)
    ensures Complete(v, p, Compare(p, shuffled)) && Listed(p, Compare(p, shuffled), v)
  {
    var l, sort := Upto(0, |p|), Compare(p, shuffled);
    ScatteredVisitAll(p, shuffled);
    v := Visit(l, sort);
    RisingClimbs(v, p, shuffled);
    AllSize(p, v, Key(p, shuffled));
    UptoHas(0, |p|, |p|);
    forall k: nat | k <= |p| ensures Result(l, sort, |p|, k) == if k < |p| then Nth(v, k) else |p| {
      ResultIsNth(l, sort, |p|, v, k);
    }
  }

  predicate Opposite(a: nat, b: nat) {
    a == b + 0x8000_0000
  }

  /** No two priorities differ by exactly 2^31. */
  predicate NoneOpposite(p: seq<nat>) {
    forall i, j :: 0 <= i < |p| && 0 <= j < |p| ==> !Opposite(p[i], p[j])
  }

  /**
   Any number of servers come once each, in the order of their priorities, and stop, exactly when any two of these
   differ by less than 2^31; provided that none differ by exactly that.
   */
  lemma {:induction false} AllInOrder(p: seq<nat>, seed: nat)
    requires |p| <= 16 && NoneOpposite(p) && forall i :: 0 <= i < |p| ==> p[i] < UINT
    ensures InOrder(p, Compare(p, Shuffler(seed))) <==> Close(p)
  {
    ShufflerScatters(seed);
    if Close(p) {
      var v := CloseListed(p, Shuffler(seed));
      ListedInOrder(p, Compare(p, Shuffler(seed)), v);
    } else {
      var i, j :| 0 <= i < |p| && 0 <= j < |p| && !Near(p[i], p[j]);
      assert !Opposite(p[i], p[j]) && !Opposite(p[j], p[i]);
      FarApart(p, Shuffler(seed), if p[i] < p[j] then i else j, if p[i] < p[j] then j else i);
    }
  }

  /** Priorities 1 and 0x8000_0002: the server of the larger one comes first. */
  lemma {:induction false} LargerComesFirst(shuffled: nat -> nat)
    ensures First(Upto(0, 2), Compare([1, 0x8000_0002], shuffled), 2) == 1
    ensures !Near(1, 0x8000_0002)
  {
    var p, l: List := [1, 0x8000_0002], Upto(0, 2);
    assert Compare(p, shuffled)(1, 0) == Difference(0x8000_0002, 1) < 0;
    assert Upto(2, 2) == Nil && Upto(1, 2) == Cons(1, Nil);
    assert Pick(0, Cons(1, Nil), Compare(p, shuffled)) == Pick(1, Nil, Compare(p, shuffled));
  }

  // ---------------------------------------------------------------- the code

  /** `dns_hints_i_start`. */
  method Start(p: seq<nat>, sort: Sort) returns (p0: nat)
    ensures p0 == First(Upto(0, |p|), sort, |p|)
  {
    p0 := 0;
    var q: nat := 1;
    while q < |p|
      invariant Pick(p0, Upto(q, |p|), sort) == Pick(0, Upto(1, |p|), sort)
      decreases |p| - q
    {
      if sort(q, p0) < 0 {
        p0 := q;
      }
      q := q + 1;
    }
  }

  /** `dns_hints_i_skip`. */
  method SkipTo(p: seq<nat>, sort: Sort, p0: nat) returns (r: nat)
    ensures r == Next(Upto(0, |p|), p0, sort, |p|)
  {
    ghost var up := Above(Upto(0, |p|), p0, sort);
    var pz: nat := 0;
    while pz < |p| && sort(pz, p0) <= 0
      invariant pz <= |p| && Above(Upto(pz, |p|), p0, sort) == up
    {
      pz := pz + 1;
    }
    if pz == |p| {
      return |p|;
    }
    r := pz;
    var q: nat := pz + 1;
    while q < |p|
      invariant pz < q <= |p| && Pick(r, Above(Upto(q, |p|), p0, sort), sort) == Pick(up.head, up.tail, sort)
    {
      if sort(q, p0) > 0 && sort(q, r) < 0 {
        r := q;
      }
      q := q + 1;
    }
  }

  /** The servers of a zone: at most sixteen, the seventeenth replaces the first. */
  class Servers {
    const addrs: array<nat>
    const priorities: array<nat>
    var count: nat

    ghost predicate Valid()
      reads this
    {
      addrs.Length == 16 && priorities.Length == 16 && addrs != priorities && count <= 16
    }

    constructor ()
      ensures Valid() && count == 0 && fresh(addrs) && fresh(priorities)
    {
      addrs := new nat[16];
      priorities := new nat[16];
      count := 0;
    }

    /** `dns_hints_insert`, for a zone that is there. */
    method Insert(addr: nat, priority: nat)
      requires Valid()
      modifies this`count, addrs, priorities
      ensures Valid() && count == if old(count) < 16 then old(count) + 1 else 16
      ensures var i, p := old(count) % 16, if priority > 1 then priority else 1;
              addrs[..count] == (if old(count) < 16 then old(addrs[..count]) + [addr] else old(addrs[..])[0 := addr])
              && priorities[..count] == (if old(count) < 16
                 then old(priorities[..count]) + [p] else old(priorities[..])[0 := p])
    {
      var i := count % 16;
      addrs[i] := addr;
      priorities[i] := if priority > 1 then priority else 1;
      if count < 16 {
        count := count + 1;
      }
    }
  }

  class Iterator {
    const shuffled: nat -> nat
    var next: nat
    /** The number of servers given. */
    ghost var given: nat

    ghost predicate Valid(p: seq<nat>)
      reads this
    {
      next == Coming(p, given)
    }

    /** The `n`-th result. */
    ghost function Coming(p: seq<nat>, n: nat): nat {
      Result(Upto(0, |p|), Compare(p, shuffled), |p|, n)
    }

    /** `dns_hints_i_init`; the seed is drawn until it is not zero. */
    constructor (p: seq<nat>, seed: nat)
      requires seed != 0
      ensures Valid(p) && shuffled == Shuffler(seed) && given == 0
    {
      var f := Shuffler(seed);
      var first := Start(p, Compare(p, f));
      shuffled := f;
      next := first;
      given := 0;
    }

    /** The results from the `from`-th on. */
    ghost predicate Listed(p: seq<nat>, from: nat, found: seq<nat>) {
      forall k :: 0 <= k < |found| ==> found[k] == Coming(p, from + k) < |p|
    }

    lemma ListedStep(p: seq<nat>, from: nat, found: seq<nat>, x: nat)
      requires Listed(p, from, found) && x == Coming(p, from + |found|) < |p|
      ensures Listed(p, from, found + [x])
    {
    }

    /** `dns_hints_grep`: the indices of the next `lim` servers, or of as many as there are. */
    method Grep(p: seq<nat>, lim: nat) returns (found: seq<nat>)
      requires Valid(p)
      modifies this
      ensures Valid(p) && given == old(given) + |found| && |found| <= lim && (|found| < lim ==> Coming(p, given) >= |p|)
      ensures Listed(p, old(given), found)
    {
      found := [];
      while next < |p| && |found| < lim
        invariant Valid(p) && given == old(given) + |found| && |found| <= lim
        invariant Listed(p, old(given), found)
        decreases lim - |found|
      {
        ListedStep(p, old(given), found, next);
        found := found + [next];
        next := SkipTo(p, Compare(p, shuffled), next);
        given := given + 1;
      }
    }
  }
}
