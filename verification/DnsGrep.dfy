/**
 The record iterator: `dns_rr_i_start`, `dns_rr_i_skip` and `dns_rr_grep` over the records of a packet.
 */
module DnsGrep {
  import opened Wrappers
  import opened Bits
  import opened Bytes
  import opened DnsDict
  import opened DnsRead
  import opened DnsSections
  import opened DnsRecords
  import opened DnsSelect
  import opened DnsShuffle

  /** DNS_T_ALL and DNS_C_ANY. */
  const ANY: nat := 255

  /** What the iterator asks for; zero asks for nothing.  `more` is the comparison of name and data. */
  datatype Filter = Filter(section: nat, typ: nat, cls: nat, more: nat -> bool)

  /** `mask & section`, for a single section bit or none. */
  predicate Selected(mask: nat, section: nat) {
    if section == 1 then mask % 2 == 1
    else if section == 2 then mask / 2 % 2 == 1
    else if section == 4 then mask / 4 % 2 == 1
    else section == 8 && mask / 8 % 2 == 1
  }

  /** `dns_rr_i_match`, for the record at `rp`, if it parses at all. */
  predicate Matches(d: seq<byte>, m: Memos, i: Filter, rp: nat)
    requires HEADER <= |d|
  {
    var rr := RrParse(d, rp);
    rr.Some?
    && (i.section == 0 || Selected(i.section, Section(d, m, rp)))
    && (i.typ == 0 || rr.value.typ == i.typ || i.typ == ANY)
    && (i.cls == 0 || rr.value.cls == i.cls || i.cls == ANY)
    && i.more(rp)
  }

  /**
   In numbers: the bit of the record's section is set in the mask, type and class are asked for, or not restricted by
   0 or 255.
   */
  lemma MatchesExactly(d: seq<byte>, m: Memos, i: Filter, rp: nat)
    requires HEADER <= |d| && Section(d, m, rp) in {0, 1, 2, 4, 8}
    ensures Matches(d, m, i, rp)
            <==> RrParse(d, rp).Some? && (i.section == 0
                                          || (Section(d, m, rp) > 0 && i.section / Section(d, m, rp) % 2 == 1))
                 && i.typ in {0, 255, RrParse(d, rp).value.typ} && i.cls in {0, 255, RrParse(d, rp).value.cls}
                 && i.more(rp)
  {
  }

  method Check(d: seq<byte>, m: Memos, i: Filter, rp: nat) returns (b: bool)
    requires HEADER <= |d|
    ensures b == Matches(d, m, i, rp)
  {
    var rr := ParseRecord(d, rp);
    if rr.None? {
      return false;
    }
    var section := RecordSection(d, m, rp);
    if i.section != 0 && !Selected(i.section, section) {
      return false;
    }
    if i.typ != 0 && rr.value.typ != i.typ && i.typ != ANY {
      return false;
    }
    if i.cls != 0 && rr.value.cls != i.cls && i.cls != ANY {
      return false;
    }
    b := i.more(rp);
  }

  /** `Matches` as a function of the offset alone. */
  function Matcher(d: seq<byte>, m: Memos, i: Filter): nat -> bool
    requires HEADER <= |d|
  {
    (rp: nat) => Matches(d, m, i, rp)
  }

  /** The records from `rp` on that satisfy `ok`. */
  ghost function Found(f: nat -> nat, end: nat, rp: nat, ok: nat -> bool): List
    requires Advances(f, end)
    decreases end - rp
  {
    if rp >= end then Nil
    else if ok(rp) then Cons(rp, Found(f, end, f(rp), ok))
    else Found(f, end, f(rp), ok)
  }

  // ---------------------------------------------------------------- the scans

  /** Where the scan for the first result begins: at the first section asked for that the memo knows. */
  function StartAt(m: Memos, mask: nat): nat {
    if mask % 2 == 1 && m.qd.base != 0 then m.qd.base
    else if mask / 2 % 2 == 1 && m.an.base != 0 then m.an.base
    else if mask / 4 % 2 == 1 && m.ns.base != 0 then m.ns.base
    else if mask / 8 % 2 == 1 && m.ar.base != 0 then m.ar.base
    else HEADER
  }

  /** The result of a scan over the candidates `l`; the end of the packet when there are none. */
  function Best(l: List, sort: Sort, inOrder: bool, end: nat): nat {
    if l == Nil then end else if inOrder then l.head else Pick(l.head, l.tail, sort)
  }

  /** `dns_rr_i_start`; `inOrder` says that `sort` is `dns_rr_i_packet`. */
  method Start(d: seq<byte>, m: Memos, i: Filter, sort: Sort, inOrder: bool, ghost f: nat -> nat, ghost ok: nat -> bool)
    returns (r: nat)
    requires HEADER <= |d| && f == Skipper(d) && Advances(f, |d|) && ok == Matcher(d, m, i)
    ensures r == Best(Found(f, |d|, StartAt(m, i.section), ok), sort, inOrder, |d|)
  {
    ghost var l := Found(f, |d|, StartAt(m, i.section), ok);
    var rp: nat := StartAt(m, i.section);
    var found := false;
    while !found
      invariant l == Found(f, |d|, rp, ok) && (found ==> rp < |d| && ok(rp))
      decreases !found, |d| - rp
    {
      if rp >= |d| {
        return |d|;
      }
      found := Check(d, m, i, rp);
      if !found {
        rp := SkipRecord(d, rp, f);
      }
    }
    r := rp;
    if inOrder {
      return;
    }
    rp := SkipRecord(d, rp, f);
    while rp < |d|
      invariant Pick(r, Found(f, |d|, rp, ok), sort) == Pick(l.head, l.tail, sort)
      decreases |d| - rp
    {
      var b := Check(d, m, i, rp);
      if b && sort(rp, r) < 0 {
        r := rp;
      }
      rp := SkipRecord(d, rp, f);
    }
  }

  /** `dns_rr_skip`. */
  method SkipRecord(d: seq<byte>, rp: nat, ghost f: nat -> nat) returns (n: nat)
    requires HEADER <= |d| && f == Skipper(d) && rp < |d|
    ensures n == f(rp) && rp < n <= |d|
  {
    var len := RecordLength(d, rp);
    n := rp + len;
  }

  /** Of the records that match and come after the one at `x`, the least; `end` if there is none. */
  ghost function Following(d: seq<byte>, m: Memos, i: Filter, sort: Sort, inOrder: bool, x: nat): nat
    requires HEADER <= |d| && Advances(Skipper(d), |d|)
  {
    var f := Skipper(d);
    Best(Above(Found(f, |d|, if inOrder then f(x) else HEADER, Matcher(d, m, i)), x, sort), sort, inOrder, |d|)
  }

  /** `dns_rr_i_skip`. */
  method SkipTo(d: seq<byte>, m: Memos, i: Filter, sort: Sort, inOrder: bool, x: nat, ghost f: nat -> nat,
                ghost ok: nat -> bool)
    returns (r: nat)
    requires HEADER <= |d| && f == Skipper(d) && Advances(f, |d|) && ok == Matcher(d, m, i) && x < |d|
    ensures r == if RrParse(d, x).None? then |d| else Following(d, m, i, sort, inOrder, x)
  {
    var rr := ParseRecord(d, x);
    if rr.None? {
      return |d|;
    }
    var rp: nat := HEADER;
    if inOrder {
      rp := SkipRecord(d, x, f);
    }
    ghost var l := Above(Found(f, |d|, rp, ok), x, sort);
    var found := false;
    while !found
      invariant l == Above(Found(f, |d|, rp, ok), x, sort) && (found ==> rp < |d| && ok(rp) && sort(rp, x) > 0)
      decreases !found, |d| - rp
    {
      if rp >= |d| {
        return |d|;
      }
      found := Check(d, m, i, rp);
      found := found && sort(rp, x) > 0;
      if !found {
        rp := SkipRecord(d, rp, f);
      }
    }
    r := rp;
    if inOrder {
      return;
    }
    rp := SkipRecord(d, rp, f);
    while rp < |d|
      invariant Pick(r, Above(Found(f, |d|, rp, ok), x, sort), sort) == Pick(l.head, l.tail, sort)
      decreases |d| - rp
    {
      var b := Check(d, m, i, rp);
      if b && sort(rp, x) > 0 && sort(rp, r) < 0 {
        r := rp;
      }
      rp := SkipRecord(d, rp, f);
    }
  }

  // ---------------------------------------------------------------- the two orders

  /** `dns_rr_i_packet`. */
  const PACKET_ORDER: Sort := (a: nat, b: nat) => a - b

  /** No two candidates tie. */
  ghost predicate Apart(l: List, sort: Sort) {
    forall x, y {:trigger Ties(x, y, sort)} :: Has(l, x) && Has(l, y) && Ties(x, y, sort) ==> x == y
  }

  lemma PacketRanks(l: List)
    ensures Ranked(l, PACKET_ORDER) && Apart(l, PACKET_ORDER)
  {
  }

  /** `dns_rr_i_shuffle`: by section, and within a section by the shuffled offset. */
  function ShuffleOrder(section: nat -> nat, seed: nat): Sort {
    (a: nat, b: nat) => if section(a) != section(b) then section(a) - section(b)
                        else Shuffle(a, seed) - Shuffle(b, seed)
  }

  function ShuffleKey(section: nat -> nat, seed: nat): nat -> int {
    (x: nat) => section(x) * 65536 + Shuffle(x, seed)
  }

  /** Shuffling ranks offsets below 65536 without ties, whatever the seed, as it is injective. */
  lemma ShuffleRanks(l: List, section: nat -> nat, seed: nat)
    requires forall x {:trigger Has(l, x)} :: Has(l, x) ==> x < 65536
    ensures Ranked(l, ShuffleOrder(section, seed)) && Apart(l, ShuffleOrder(section, seed))
  {
    var sort, key := ShuffleOrder(section, seed), ShuffleKey(section, seed);
    forall x, y | Has(l, x) && Has(l, y)
      ensures (sort(x, y) < 0 <==> key(x) < key(y)) && (sort(x, y) > 0 <==> key(x) > key(y))
              && (key(x) == key(y) ==> x == y)
    {
      ShuffleBound(x, seed);
      ShuffleBound(y, seed);
      KeyOrder(section(x), section(y), Shuffle(x, seed), Shuffle(y, seed));
      KeyOrder(section(y), section(x), Shuffle(y, seed), Shuffle(x, seed));
      if key(x) == key(y) {
        ShuffleInjective(x, y, seed);
      }
    }
    KeysRank(l, sort, key);
  }

  // ---------------------------------------------------------------- in packet order

  lemma {:induction false} FoundFrom(f: nat -> nat, end: nat, rp: nat, ok: nat -> bool, y: nat)
    requires Advances(f, end) && Has(Found(f, end, rp, ok), y)
    ensures rp <= y < end && ok(y)
    decreases end - rp
  {
    if !(ok(rp) && y == rp) {
      FoundFrom(f, end, f(rp), ok, y);
    }
  }

  /** The first match is the least, and everything after it is above it. */
  lemma {:induction false} PickFirst(x: nat, l: List)
    requires forall y {:trigger Has(l, y)} :: Has(l, y) ==> x < y
    ensures Pick(x, l, PACKET_ORDER) == x && Above(l, x, PACKET_ORDER) == l
    decreases l
  {
    if l != Nil {
      assert Has(l, l.head);
      forall y | Has(l.tail, y) ensures x < y {
        assert Has(l, y);
      }
      PickFirst(x, l.tail);
    }
  }

  lemma InOrder(f: nat -> nat, end: nat, rp: nat, ok: nat -> bool)
    requires Advances(f, end)
    ensures Best(Found(f, end, rp, ok), PACKET_ORDER, true, end)
            == Best(Found(f, end, rp, ok), PACKET_ORDER, false, end)
    decreases end - rp
  {
    var l := Found(f, end, rp, ok);
    if rp < end {
      if ok(rp) {
        forall y | Has(l.tail, y) ensures rp < y {
          FoundFrom(f, end, f(rp), ok, y);
        }
        PickFirst(rp, l.tail);
      } else {
        InOrder(f, end, f(rp), ok);
      }
    }
  }

  /** What a scan from behind `x` finds is what a scan of the whole packet finds above `x`. */
  lemma {:induction false} ScanBehind(f: nat -> nat, end: nat, rp: nat, ok: nat -> bool, x: nat)
    requires Advances(f, end) && Has(Found(f, end, rp, ok), x)
    ensures Above(Found(f, end, rp, ok), x, PACKET_ORDER) == Found(f, end, f(x), ok)
            == Above(Found(f, end, f(x), ok), x, PACKET_ORDER)
    decreases end - rp
  {
    FoundFrom(f, end, rp, ok, x);
    if x == rp {
      forall y | Has(Found(f, end, f(x), ok), y) ensures x < y {
        FoundFrom(f, end, f(x), ok, y);
      }
      PickFirst(x, Found(f, end, f(x), ok));
    } else {
      ScanBehind(f, end, f(rp), ok, x);
    }
  }

  // ---------------------------------------------------------------- where the scan begins

  lemma {:induction false} FoundBehind(f: nat -> nat, end: nat, ok: nat -> bool, j: nat, k: nat)
    requires HEADER <= end && Advances(f, end) && j <= k
    requires forall i {:trigger Boundary(f, end, i)} :: j <= i < k && Boundary(f, end, i) < end ==>
                                                        !ok(Boundary(f, end, i))
    ensures Found(f, end, Boundary(f, end, j), ok) == Found(f, end, Boundary(f, end, k), ok)
    decreases k - j
  {
    if j < k {
      var b := Boundary(f, end, j);
      if b < end {
        assert Boundary(f, end, j + 1) == f(b);
        FoundBehind(f, end, ok, j + 1, k);
      } else {
        BoundariesRise(f, end, j, k);
      }
    }
  }

  /** The index at which the first section of the mask begins. */
  function FirstIndex(mask: nat, q: nat, a: nat, n: nat): nat {
    if mask % 2 == 1 then 0
    else if mask / 2 % 2 == 1 then q
    else if mask / 4 % 2 == 1 then q + a
    else if mask / 8 % 2 == 1 then q + a + n
    else 0
  }

  lemma StartIsBoundary(f: nat -> nat, end: nat, mask: nat, q: nat, a: nat, n: nat, r: nat)
    requires HEADER <= end && Advances(f, end)
    ensures StartAt(MemosFrom(f, end, q, a, n, r), mask) == Boundary(f, end, FirstIndex(mask, q, a, n))
  {
    MemoBounds(f, end, q, a, n, r);
    BoundariesRise(f, end, 0, q);
    BoundariesRise(f, end, 0, q + a);
    BoundariesRise(f, end, 0, q + a + n);
  }

  lemma EarlierUnselected(mask: nat, j: nat, q: nat, a: nat, n: nat, r: nat)
    requires mask < 16 && j < FirstIndex(mask, q, a, n)
    ensures mask != 0 && !Selected(mask, SectionOfIndex(j, q, a, n, r))
  {
  }

  /** A record before the first section asked for does not match. */
  lemma EarlierFails(d: seq<byte>, i: Filter, j: nat)
    requires HEADER <= |d| && i.section < 16 && j < FirstIndex(i.section, Count(d, 0), Count(d, 1), Count(d, 2))
    requires Boundary(Skipper(d), |d|, j) < |d|
    ensures !Matches(d, Study(d), i, Boundary(Skipper(d), |d|, j))
  {
    EarlierUnselected(i.section, j, Count(d, 0), Count(d, 1), Count(d, 2), Count(d, 3));
    MemoAgreesWithRecount(d, j);
  }

  /** With a fresh memo, or none, no record that matches lies before the first section asked for. */
  lemma {:induction false} StartMissesNothing(d: seq<byte>, m: Memos, i: Filter, f: nat -> nat, ok: nat -> bool)
    requires HEADER <= |d| && f == Skipper(d) && Advances(f, |d|) && ok == Matcher(d, m, i) && i.section < 16
    requires m == UNSTUDIED || m == Study(d)
    ensures Found(f, |d|, StartAt(m, i.section), ok) == Found(f, |d|, HEADER, ok)
  {
    if m != UNSTUDIED {
      var k := FirstIndex(i.section, Count(d, 0), Count(d, 1), Count(d, 2));
      StartIsBoundary(f, |d|, i.section, Count(d, 0), Count(d, 1), Count(d, 2), Count(d, 3));
      forall j | 0 <= j < k && Boundary(f, |d|, j) < |d| ensures !ok(Boundary(f, |d|, j)) {
        EarlierFails(d, i, j);
      }
      FoundBehind(f, |d|, ok, 0, k);
    }
  }

  // ---------------------------------------------------------------- dns_rr_grep

  /** The records that match, in packet order. */
  ghost function Candidates(d: seq<byte>, m: Memos, i: Filter): List
    requires HEADER <= |d|
  {
    SkipperAdvances(d);
    Found(Skipper(d), |d|, HEADER, Matcher(d, m, i))
  }

  lemma CandidateIs(d: seq<byte>, m: Memos, i: Filter, x: nat)
    requires HEADER <= |d| && Has(Candidates(d, m, i), x)
    ensures x < |d| && Matches(d, m, i, x)
  {
    SkipperAdvances(d);
    FoundFrom(Skipper(d), |d|, HEADER, Matcher(d, m, i), x);
  }

  lemma {:induction false} FoundAscends(f: nat -> nat, end: nat, rp: nat, ok: nat -> bool)
    requires Advances(f, end)
    ensures Ascending(Found(f, end, rp, ok))
    decreases end - rp
  {
    if rp < end {
      FoundAscends(f, end, f(rp), ok);
      var l := Found(f, end, f(rp), ok);
      if l.Cons? {
        FoundFrom(f, end, f(rp), ok, l.head);
      }
    }
  }

  lemma CandidatesAscend(d: seq<byte>, m: Memos, i: Filter)
    requires HEADER <= |d|
    ensures Ascending(Candidates(d, m, i))
  {
    SkipperAdvances(d);
    FoundAscends(Skipper(d), |d|, HEADER, Matcher(d, m, i));
  }

  lemma {:induction false} FoundHas(f: nat -> nat, end: nat, ok: nat -> bool, j: nat, k: nat)
    requires HEADER <= end && Advances(f, end) && j <= k && Boundary(f, end, k) < end && ok(Boundary(f, end, k))
    ensures Has(Found(f, end, Boundary(f, end, j), ok), Boundary(f, end, k))
    decreases k - j
  {
    BoundariesRise(f, end, j, k);
    if j < k {
      assert Boundary(f, end, j + 1) == f(Boundary(f, end, j));
      FoundHas(f, end, ok, j + 1, k);
    }
  }

  lemma {:induction false} FoundAtBoundary(f: nat -> nat, end: nat, ok: nat -> bool, j: nat, y: nat) returns (k: nat)
    requires HEADER <= end && Advances(f, end) && Has(Found(f, end, Boundary(f, end, j), ok), y)
    ensures j <= k && y == Boundary(f, end, k)
    decreases end - Boundary(f, end, j)
  {
    var b := Boundary(f, end, j);
    if ok(b) && y == b {
      k := j;
    } else {
      assert Boundary(f, end, j + 1) == f(b);
      k := FoundAtBoundary(f, end, ok, j + 1, y);
    }
  }

  /** The packet's memo is absent or fresh. */
  ghost predicate Fresh(d: seq<byte>, m: Memos, i: Filter) {
    HEADER <= |d| && (m == UNSTUDIED || m == Study(d)) && i.section < 16
  }

  lemma MatchIsCandidate(d: seq<byte>, m: Memos, i: Filter, k: nat)
    requires HEADER <= |d| && Boundary(Skipper(d), |d|, k) < |d|
    ensures Has(Candidates(d, m, i), Boundary(Skipper(d), |d|, k)) <==> Matches(d, m, i, Boundary(Skipper(d), |d|, k))
  {
    var f, ok, l := Skipper(d), Matcher(d, m, i), Candidates(d, m, i);
    var rp := Boundary(f, |d|, k);
    SkipperAdvances(d);
    if ok(rp) {
      assert Boundary(f, |d|, 0) == HEADER;
      FoundHas(f, |d|, ok, 0, k);
    }
    if Has(l, rp) {
      CandidateIs(d, m, i, rp);
    }
  }

  /**
   Repeated `dns_rr_grep`, for every packet, filter and ranking: the results rise strictly and stop; a
   record comes exactly when it matches and is the one chosen of its rank, and of every rank one comes.
   */
  lemma {:induction false} GrepVisits(d: seq<byte>, m: Memos, i: Filter, sort: Sort, k: nat)
    requires Fresh(d, m, i) && Ranked(Candidates(d, m, i), sort)
    ensures Rising(Visit(Candidates(d, m, i), sort), sort) && Stops(Candidates(d, m, i), sort, |d|)
    ensures var l, rp := Candidates(d, m, i), Boundary(Skipper(d), |d|, k);
            rp < |d| ==> (Has(Visit(l, sort), rp) <==> Matches(d, m, i, rp) && Chosen(l, rp, sort) == rp)
                         && (Matches(d, m, i, rp) ==> Has(Visit(l, sort), Chosen(l, rp, sort))
                                                      && Ties(Chosen(l, rp, sort), rp, sort))
  {
    var l, rp := Candidates(d, m, i), Boundary(Skipper(d), |d|, k);
    VisitsAll(l, sort, rp);
    if rp < |d| {
      MatchIsCandidate(d, m, i, k);
    }
    if Has(l, |d|) {
      CandidateIs(d, m, i, |d|);
    }
    RankedStops(l, sort, |d|);
  }

  lemma {:induction false} GrepVisitsOnly(d: seq<byte>, m: Memos, i: Filter, sort: Sort, y: nat) returns (k: nat)
    requires Fresh(d, m, i) && Ranked(Candidates(d, m, i), sort) && Has(Visit(Candidates(d, m, i), sort), y)
    ensures y == Boundary(Skipper(d), |d|, k) < |d| && Matches(d, m, i, y)
  {
    SkipperAdvances(d);
    VisitsAll(Candidates(d, m, i), sort, y);
    CandidateIs(d, m, i, y);
    assert Boundary(Skipper(d), |d|, 0) == HEADER;
    k := FoundAtBoundary(Skipper(d), |d|, Matcher(d, m, i), 0, y);
  }

  /** Without ties every record that matches comes, exactly once. */
  lemma {:induction false} GrepVisitsEach(d: seq<byte>, m: Memos, i: Filter, sort: Sort, k: nat)
    requires Fresh(d, m, i) && Ranked(Candidates(d, m, i), sort) && Apart(Candidates(d, m, i), sort)
    ensures Rising(Visit(Candidates(d, m, i), sort), sort) && Stops(Candidates(d, m, i), sort, |d|)
    ensures var rp := Boundary(Skipper(d), |d|, k);
            rp < |d| ==> (Has(Visit(Candidates(d, m, i), sort), rp) <==> Matches(d, m, i, rp))
  {
    GrepVisits(d, m, i, sort, k);
    if Boundary(Skipper(d), |d|, k) < |d| {
      MatchIsCandidate(d, m, i, k);
      if Matches(d, m, i, Boundary(Skipper(d), |d|, k)) {
        ChosenTies(Candidates(d, m, i), sort, Boundary(Skipper(d), |d|, k));
      }
    }
  }

  lemma NotAtEnd(d: seq<byte>, m: Memos, i: Filter)
    requires Fresh(d, m, i)
    ensures !Has(Candidates(d, m, i), |d|)
  {
    if Has(Candidates(d, m, i), |d|) {
      CandidateIs(d, m, i, |d|);
    }
  }

  /** `dns_rr_i_packet` visits the records that match in packet order. */
  lemma {:induction false} PacketVisits(d: seq<byte>, m: Memos, i: Filter, k: nat)
    requires Fresh(d, m, i)
    ensures Ranked(Candidates(d, m, i), PACKET_ORDER)
    ensures Rising(Visit(Candidates(d, m, i), PACKET_ORDER), PACKET_ORDER)
            && Stops(Candidates(d, m, i), PACKET_ORDER, |d|)
    ensures var rp := Boundary(Skipper(d), |d|, k);
            rp < |d| ==> (Has(Visit(Candidates(d, m, i), PACKET_ORDER), rp) <==> Matches(d, m, i, rp))
  {
    PacketRanks(Candidates(d, m, i));
    GrepVisitsEach(d, m, i, PACKET_ORDER, k);
  }

  /** `dns_rr_i_shuffle`, for a packet of at most 65535 octets. */
  function Shuffled(d: seq<byte>, m: Memos, seed: nat): Sort
    requires HEADER <= |d|
  {
    ShuffleOrder((rp: nat) => Section(d, m, rp), seed)
  }

  /** `dns_rr_i_shuffle` visits every record that matches exactly once, whatever the seed. */
  lemma {:induction false} ShuffleVisits(d: seq<byte>, m: Memos, i: Filter, seed: nat, k: nat)
    requires Fresh(d, m, i) && |d| <= 65535
    ensures Ranked(Candidates(d, m, i), Shuffled(d, m, seed))
    ensures Rising(Visit(Candidates(d, m, i), Shuffled(d, m, seed)), Shuffled(d, m, seed))
    ensures var rp := Boundary(Skipper(d), |d|, k);
            rp < |d| ==> (Has(Visit(Candidates(d, m, i), Shuffled(d, m, seed)), rp) <==> Matches(d, m, i, rp))
    ensures Stops(Candidates(d, m, i), Shuffled(d, m, seed), |d|)
  {
    forall x | Has(Candidates(d, m, i), x) ensures x < 65536 {
      CandidateIs(d, m, i, x);
    }
    ShuffleRanks(Candidates(d, m, i), (rp: nat) => Section(d, m, rp), seed);
    GrepVisitsEach(d, m, i, Shuffled(d, m, seed), k);
  }

  /** The `a`-th result and a later one, under a comparison that ranks the candidates. */
  ghost predicate Results(d: seq<byte>, m: Memos, i: Filter, sort: Sort, a: nat, b: nat, x: nat, y: nat)
    requires HEADER <= |d|
  {
    a < b && x == Result(Candidates(d, m, i), sort, |d|, a) && y == Result(Candidates(d, m, i), sort, |d|, b)
      && y != |d|
  }

  /** In packet order later results lie behind earlier ones. */
  lemma {:induction false} PacketInOrder(d: seq<byte>, m: Memos, i: Filter, a: nat, b: nat, x: nat, y: nat)
    requires Fresh(d, m, i) && Results(d, m, i, PACKET_ORDER, a, b, x, y)
    ensures x < y
  {
    PacketRanks(Candidates(d, m, i));
    NotAtEnd(d, m, i);
    ResultsRise(Candidates(d, m, i), PACKET_ORDER, |d|, a, b);
  }

  /** In shuffled order they are in a later section, or in the same one with a larger shuffled offset. */
  lemma {:induction false} ShuffleInOrder(d: seq<byte>, m: Memos, i: Filter, seed: nat, a: nat, b: nat, x: nat, y: nat)
    requires Fresh(d, m, i) && |d| <= 65535 && Results(d, m, i, Shuffled(d, m, seed), a, b, x, y)
    ensures Section(d, m, x) < Section(d, m, y)
            || (Section(d, m, x) == Section(d, m, y) && Shuffle(x, seed) < Shuffle(y, seed))
  {
    ShuffleVisits(d, m, i, seed, 0);
    NotAtEnd(d, m, i);
    ResultsRise(Candidates(d, m, i), Shuffled(d, m, seed), |d|, a, b);
  }

  /** The comparison is any, or `dns_rr_i_packet` where `inOrder` says so. */
  ghost predicate Known(sort: Sort, inOrder: bool) {
    inOrder ==> sort == PACKET_ORDER
  }

  lemma StartIsFirst(d: seq<byte>, m: Memos, i: Filter, sort: Sort, inOrder: bool)
    requires Fresh(d, m, i) && Known(sort, inOrder) && Advances(Skipper(d), |d|)
    ensures Best(Found(Skipper(d), |d|, StartAt(m, i.section), Matcher(d, m, i)), sort, inOrder, |d|)
            == First(Candidates(d, m, i), sort, |d|)
  {
    var f, ok := Skipper(d), Matcher(d, m, i);
    StartMissesNothing(d, m, i, f, ok);
    if inOrder {
      InOrder(f, |d|, HEADER, ok);
    }
  }

  lemma SkipIsNext(d: seq<byte>, m: Memos, i: Filter, sort: Sort, inOrder: bool, x: nat)
    requires Fresh(d, m, i) && Known(sort, inOrder) && Advances(Skipper(d), |d|) && Has(Candidates(d, m, i), x)
    ensures Following(d, m, i, sort, inOrder, x) == Next(Candidates(d, m, i), x, sort, |d|)
  {
    if inOrder {
      ScanBehind(Skipper(d), |d|, HEADER, Matcher(d, m, i), x);
      InOrder(Skipper(d), |d|, Skipper(d)(x), Matcher(d, m, i));
    }
  }

  /** What `dns_rr_i_skip` moves to from the `n`-th result is the next one. */
  lemma SkipIsResult(d: seq<byte>, m: Memos, i: Filter, sort: Sort, inOrder: bool, n: nat)
    requires Fresh(d, m, i) && Known(sort, inOrder) && Result(Candidates(d, m, i), sort, |d|, n) < |d|
    ensures var x := Result(Candidates(d, m, i), sort, |d|, n);
            RrParse(d, x).Some? && Advances(Skipper(d), |d|)
            && Following(d, m, i, sort, inOrder, x) == Result(Candidates(d, m, i), sort, |d|, n + 1)
  {
    var x := Result(Candidates(d, m, i), sort, |d|, n);
    ResultHas(Candidates(d, m, i), sort, |d|, n);
    CandidateIs(d, m, i, x);
    SkipperAdvances(d);
    SkipIsNext(d, m, i, sort, inOrder, x);
  }

  class Iterator {
    const filter: Filter
    const sort: Sort
    const inOrder: bool
    var started: bool
    var next: nat
    var count: nat

    /** `count` results were given; `next` is the one that follows. */
    ghost predicate Valid(d: seq<byte>, m: Memos)
      reads this
    {
      Fresh(d, m, filter) && Known(sort, inOrder)
      && if started then next == Coming(d, m, count) else count == 0
    }

    /** The `n`-th result. */
    ghost function Coming(d: seq<byte>, m: Memos, n: nat): nat
      requires HEADER <= |d|
    {
      Result(Candidates(d, m, filter), sort, |d|, n)
    }

    /** `dns_rr_i_init`. */
    constructor (filter: Filter, sort: Sort, inOrder: bool, ghost d: seq<byte>, ghost m: Memos)
      requires Fresh(d, m, filter) && Known(sort, inOrder)
      ensures Valid(d, m) && count == 0
      ensures this.filter == filter && this.sort == sort && this.inOrder == inOrder
    {
      this.filter := filter;
      this.sort := sort;
      this.inOrder := inOrder;
      started := false;
      next := 0;
      count := 0;
    }

    method Begin(d: seq<byte>, m: Memos)
      requires Valid(d, m)
      modifies this
      ensures Valid(d, m) && started && count == old(count)
    {
      if !started {
        SkipperAdvances(d);
        StartIsFirst(d, m, filter, sort, inOrder);
        next := Start(d, m, filter, sort, inOrder, Skipper(d), Matcher(d, m, filter));
        started := true;
      }
    }

    /** The record at hand, and its section. */
    method Current(d: seq<byte>, m: Memos) returns (rr: Rr, section: nat)
      requires Valid(d, m) && started && next < |d|
      ensures RrParse(d, next) == Some(rr) && section == Section(d, m, next)
    {
      ResultHas(Candidates(d, m, filter), sort, |d|, count);
      CandidateIs(d, m, filter, next);
      var parsed := ParseRecord(d, next);
      rr := parsed.value;
      section := RecordSection(d, m, next);
    }

    method Advance(d: seq<byte>, m: Memos)
      requires Valid(d, m) && started && next < |d|
      modifies this
      ensures Valid(d, m) && started && count == old(count) + 1
    {
      SkipIsResult(d, m, filter, sort, inOrder, count);
      next := SkipTo(d, m, filter, sort, inOrder, next, Skipper(d), Matcher(d, m, filter));
      count := count + 1;
    }

    /** One result, and then the next. */
    method Take(d: seq<byte>, m: Memos) returns (rr: Rr, section: nat)
      requires Valid(d, m) && started && next < |d|
      modifies this
      ensures Valid(d, m) && started && count == old(count) + 1
      ensures RrParse(d, old(next)) == Some(rr) && section == Section(d, m, old(next))
    {
      rr, section := Current(d, m);
      Advance(d, m);
    }

    /**
     `dns_rr_grep`: the next `lim` results or as many as there are, under any comparison.  Whatever the
     limits, the calls together give what repeated selection gives, record for record.
     */
    method Grep(d: seq<byte>, m: Memos, lim: nat) returns (rrs: seq<Rr>, sections: seq<nat>)
      requires Valid(d, m)
      modifies this
      ensures Valid(d, m) && count == old(count) + |rrs| && |rrs| <= lim
      ensures |rrs| < lim ==> Coming(d, m, count) >= |d|
      ensures Given(d, m, old(count), rrs, sections)
    {
      Begin(d, m);
      rrs, sections := [], [];
      while |rrs| < lim && next < |d|
        invariant Valid(d, m) && started && count == old(count) + |rrs| && |rrs| <= lim
        invariant Given(d, m, old(count), rrs, sections)
        decreases lim - |rrs|
      {
        ghost var x := next;
        var rr, section := Take(d, m);
        GivenStep(d, m, old(count), rrs, sections, x, rr, section);
        rrs, sections := rrs + [rr], sections + [section];
      }
    }

    /** The records and sections of the results from the `from`-th on. */
    ghost predicate Given(d: seq<byte>, m: Memos, from: nat, rrs: seq<Rr>, sections: seq<nat>) {
      HEADER <= |d| && |sections| == |rrs|
      && forall k :: 0 <= k < |rrs| ==> GivenAt(d, m, Coming(d, m, from + k), rrs[k], sections[k])
    }

    predicate GivenAt(d: seq<byte>, m: Memos, x: nat, rr: Rr, section: nat)
      requires HEADER <= |d|
    {
      x < |d| && RrParse(d, x) == Some(rr) && section == Section(d, m, x)
    }

    lemma GivenStep(d: seq<byte>, m: Memos, from: nat, rrs: seq<Rr>, sections: seq<nat>, x: nat, rr: Rr, section: nat)
      requires Given(d, m, from, rrs, sections) && x == Coming(d, m, from + |rrs|) && GivenAt(d, m, x, rr, section)
      ensures Given(d, m, from, rrs + [rr], sections + [section])
    {
    }
  }
}
