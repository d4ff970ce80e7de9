/**
 Where the records of a packet lie and to which section each belongs (section 4.1 of RFC 1035).

 The packet keeps a memo of section bounds (`dns_p_study`); `dns_rr_section` consults it first and
 recounts the records from the header's counts where it finds nothing.
 */
module DnsSections {
  import opened Bytes
  import opened DnsWalk
  import opened DnsRead
  import opened DnsDict

  const HEADER: nat := 12

  /** The header's count for the question, answer, authority and additional section (0 to 3). */
  function Count(d: seq<byte>, s: nat): nat
    requires HEADER <= |d| && s < 4
  {
    Read16(d, 4 + 2 * s)
  }

  // ---------------------------------------------------------------- one record after another

  function QEndFrom(d: seq<byte>, q: nat, count: nat): (r: nat)
    ensures r <= |d|
    decreases count
  {
    if count == 0 || q >= |d| then (if q < |d| then q else |d|)
    else
      var s := Skip(d, q);
      if s == |d| || |d| - s < 4 then |d| else QEndFrom(d, s + 4, count - 1)
  }

  /** Where the questions end. */
  function QEnd(d: seq<byte>): nat
    requires HEADER <= |d|
  {
    QEndFrom(d, HEADER, Count(d, 0))
  }

  /** `dns_p_qend`. */
  method QuestionEnd(d: seq<byte>) returns (q: nat)
    requires HEADER <= |d|
    ensures q == QEnd(d)
  {
    q := HEADER;
    var i, count := 0, Count(d, 0);
    while i < count && q < |d|
      invariant i <= count && QEndFrom(d, q, count - i) == QEnd(d)
    {
      q := SkipName(d, q);
      if q == |d| || |d| - q < 4 {
        return |d|;
      }
      q := q + 4;
      i := i + 1;
    }
    q := if q < |d| then q else |d|;
  }

  /** `dns_rr_len`: a record that is cut short reaches to the end of the packet. */
  function RrLen(d: seq<byte>, src: nat): (n: nat)
    requires HEADER <= |d| && src < |d|
    ensures 0 < n && src + n <= |d|
  {
    var s := Skip(d, src);
    if |d| - s < 4 then |d| - src
    else if s + 4 <= QEnd(d) then s + 4 - src
    else if |d| - (s + 4) < 6 then |d| - src
    else if |d| - (s + 10) < Read16(d, s + 8) then |d| - src
    else s + 10 + Read16(d, s + 8) - src
  }

  /** `dns_rr_skip`. */
  function RrSkip(d: seq<byte>, src: nat): (n: nat)
    requires HEADER <= |d| && src < |d|
    ensures src < n <= |d|
  {
    src + RrLen(d, src)
  }

  method RecordLength(d: seq<byte>, src: nat) returns (n: nat)
    requires HEADER <= |d| && src < |d|
    ensures n == RrLen(d, src)
  {
    var rp := SkipName(d, src);
    if |d| - rp < 4 {
      return |d| - src;
    }
    rp := rp + 4;
    var qend := QuestionEnd(d);
    if rp <= qend {
      return rp - src;
    }
    if |d| - rp < 6 {
      return |d| - src;
    }
    rp := rp + 6;
    var rdlen := Read16(d, rp - 2);
    if |d| - rp < rdlen {
      return |d| - src;
    }
    n := rp + rdlen - src;
  }

  /** `dns_rr_skip` as a function of the offset alone. */
  function Skipper(d: seq<byte>): nat -> nat
    requires HEADER <= |d|
  {
    (rp: nat) => if rp < |d| then RrSkip(d, rp) else rp
  }

  /** Each step goes on, up to the end. */
  ghost predicate Advances(f: nat -> nat, end: nat) {
    forall x: nat :: x < end ==> x < f(x) <= end
  }

  lemma SkipperAdvances(d: seq<byte>)
    requires HEADER <= |d|
    ensures Advances(Skipper(d), |d|)
  {
  }

  /** The offset of the `k`-th record, or the end of the packet when there are not that many. */
  function Boundary(f: nat -> nat, end: nat, k: nat): nat {
    if k == 0 then HEADER
    else
      var b := Boundary(f, end, k - 1);
      if b < end then f(b) else b
  }

  lemma {:induction false} BoundariesRise(f: nat -> nat, end: nat, j: nat, k: nat)
    requires HEADER <= end && Advances(f, end) && j <= k
    ensures Boundary(f, end, j) <= Boundary(f, end, k) <= end
    ensures j < k && Boundary(f, end, j) < end ==> Boundary(f, end, j) < Boundary(f, end, k)
  {
    if j < k {
      BoundariesRise(f, end, j, k - 1);
    } else if k > 0 {
      BoundariesRise(f, end, k - 1, k - 1);
    }
  }

  // ---------------------------------------------------------------- the memo

  datatype Memo = Memo(base: nat, end: nat)
  datatype Memos = Memos(qd: Memo, an: Memo, ns: Memo, ar: Memo)

  const UNSTUDIED := Memos(Memo(0, 0), Memo(0, 0), Memo(0, 0), Memo(0, 0))

  /** `count` records on from `rp`. */
  function Forward(f: nat -> nat, end: nat, rp: nat, count: nat): nat
    decreases count
  {
    if count == 0 || rp >= end then rp else Forward(f, end, f(rp), count - 1)
  }

  function MemosFrom(f: nat -> nat, end: nat, q: nat, a: nat, n: nat, r: nat): Memos {
    var q' := Forward(f, end, HEADER, q);
    var a' := Forward(f, end, q', a);
    var n' := Forward(f, end, a', n);
    Memos(Memo(HEADER, q'), Memo(q', a'), Memo(a', n'), Memo(n', Forward(f, end, n', r)))
  }

  function Study(d: seq<byte>): Memos
    requires HEADER <= |d|
  {
    MemosFrom(Skipper(d), |d|, Count(d, 0), Count(d, 1), Count(d, 2), Count(d, 3))
  }

  /** `dns_s_study`. */
  method StudySection(d: seq<byte>, count: nat, base: nat) returns (m: Memo)
    requires HEADER <= |d|
    ensures m == Memo(base, Forward(Skipper(d), |d|, base, count))
  {
    ghost var f := Skipper(d);
    var rp: nat, c: nat := base, count;
    while c > 0 && rp < |d|
      invariant Forward(f, |d|, rp, c) == Forward(f, |d|, base, count)
      decreases c
    {
      var n := RecordLength(d, rp);
      rp := rp + n;
      c := c - 1;
    }
    m := Memo(base, rp);
  }

  /** `dns_p_study`. */
  method StudyPacket(d: seq<byte>) returns (m: Memos)
    requires HEADER <= |d|
    ensures m == Study(d)
  {
    var qd := StudySection(d, Count(d, 0), HEADER);
    var an := StudySection(d, Count(d, 1), qd.end);
    var ns := StudySection(d, Count(d, 2), an.end);
    var ar := StudySection(d, Count(d, 3), ns.end);
    m := Memos(qd, an, ns, ar);
  }

  // ---------------------------------------------------------------- the section of a record

  /** The section bit of the `index`-th record, given the counts of the four sections; 0 beyond all. */
  function SectionOfIndex(index: nat, q: nat, a: nat, n: nat, r: nat): nat {
    if index < q then 1
    else if index < q + a then 2
    else if index < q + a + n then 4
    else if index < q + a + n + r then 8
    else 0
  }

  /** How many records begin before `src`, from `rp` on. */
  function IndexAt(f: nat -> nat, end: nat, src: nat, rp: nat, fuel: nat): nat
    decreases fuel
  {
    if rp < src && rp < end && fuel > 0 then 1 + IndexAt(f, end, src, f(rp), fuel - 1) else 0
  }

  /** The hard way: count the records before `src`, then the sections' counts up to there. */
  function Recount(d: seq<byte>, src: nat): nat
    requires HEADER <= |d|
  {
    SectionOfIndex(IndexAt(Skipper(d), |d|, src, HEADER, |d|), Count(d, 0), Count(d, 1), Count(d, 2), Count(d, 3))
  }

  function MemoSection(m: Memos, src: nat): nat {
    if m.qd.base <= src < m.qd.end then 1
    else if m.an.base <= src < m.an.end then 2
    else if m.ns.base <= src < m.ns.end then 4
    else if m.ar.base <= src < m.ar.end then 8
    else 0
  }

  /** `dns_rr_section`. */
  function Section(d: seq<byte>, m: Memos, src: nat): nat
    requires HEADER <= |d|
  {
    if MemoSection(m, src) != 0 then MemoSection(m, src) else Recount(d, src)
  }

  method RecordSection(d: seq<byte>, m: Memos, src: nat) returns (section: nat)
    requires HEADER <= |d|
    ensures section == Section(d, m, src)
  {
    if m.qd.base <= src < m.qd.end {
      return 1;
    }
    if m.an.base <= src < m.an.end {
      return 2;
    }
    if m.ns.base <= src < m.ns.end {
      return 4;
    }
    if m.ar.base <= src < m.ar.end {
      return 8;
    }
    ghost var f := Skipper(d);
    ghost var fuel: nat := |d|;
    var rp: nat, index: nat := HEADER, 0;
    while rp < src && rp < |d|
      invariant |d| <= rp + fuel
      invariant index + IndexAt(f, |d|, src, rp, fuel) == IndexAt(f, |d|, src, HEADER, |d|)
      decreases |d| - rp
    {
      var n := RecordLength(d, rp);
      rp := rp + n;
      index := index + 1;
      fuel := fuel - 1;
    }
    section := SectionAt(d, index);
  }

  /** The second loop: the section whose count first takes the sum past `index`. */
  method SectionAt(d: seq<byte>, index: nat) returns (section: nat)
    requires HEADER <= |d|
    ensures section == SectionOfIndex(index, Count(d, 0), Count(d, 1), Count(d, 2), Count(d, 3))
  {
    var s: nat, count: nat := 0, Count(d, 0);
    section := 1;
    while index >= count && section <= 8
      invariant s <= 4 && section == [1, 2, 4, 8, 16][s]
      invariant count == (if s == 0 then Count(d, 0) else if s == 1 then Count(d, 0) + Count(d, 1)
                          else if s == 2 then Count(d, 0) + Count(d, 1) + Count(d, 2)
                          else Count(d, 0) + Count(d, 1) + Count(d, 2) + Count(d, 3))
      invariant s >= 1 ==> index >= Count(d, 0)
      invariant s >= 2 ==> index >= Count(d, 0) + Count(d, 1)
      invariant s >= 3 ==> index >= Count(d, 0) + Count(d, 1) + Count(d, 2)
      invariant s >= 4 ==> index >= count
      decreases 4 - s
    {
      section := section * 2;
      s := s + 1;
      if s < 4 {
        count := count + Count(d, s);
      }
    }
    section := if section == 16 then 0 else section;
  }

  lemma {:induction false} ForwardIsBoundary(f: nat -> nat, end: nat, k: nat, count: nat)
    requires HEADER <= end && Advances(f, end)
    ensures Forward(f, end, Boundary(f, end, k), count) == Boundary(f, end, k + count)
    decreases count
  {
    if count > 0 {
      if Boundary(f, end, k) < end {
        assert Boundary(f, end, k + 1) == f(Boundary(f, end, k));
        ForwardIsBoundary(f, end, k + 1, count - 1);
      } else {
        BoundariesRise(f, end, k, k + count);
      }
    }
  }

  /** The memo's bounds are the records at which the counts say the sections begin. */
  lemma ForwardTo(f: nat -> nat, end: nat, k: nat, count: nat, m: nat, b: nat, b': nat)
    requires HEADER <= end && Advances(f, end) && m == k + count && b == Boundary(f, end, k)
             && b' == Boundary(f, end, m)
    ensures Forward(f, end, b, count) == b'
  {
    ForwardIsBoundary(f, end, k, count);
  }

  lemma MemosAre(f: nat -> nat, end: nat, q: nat, a: nat, n: nat, r: nat, q': nat, a': nat, n': nat, r': nat)
    requires Forward(f, end, HEADER, q) == q' && Forward(f, end, q', a) == a'
    requires Forward(f, end, a', n) == n' && Forward(f, end, n', r) == r'
    ensures MemosFrom(f, end, q, a, n, r) == Memos(Memo(HEADER, q'), Memo(q', a'), Memo(a', n'), Memo(n', r'))
  {
  }

  lemma MemoBounds(f: nat -> nat, end: nat, q: nat, a: nat, n: nat, r: nat)
    requires HEADER <= end && Advances(f, end)
    ensures MemosFrom(f, end, q, a, n, r)
            == Memos(Memo(HEADER, Boundary(f, end, q)), Memo(Boundary(f, end, q), Boundary(f, end, q + a)),
                 Memo(Boundary(f, end, q + a), Boundary(f, end, q + a + n)),
                 Memo(Boundary(f, end, q + a + n), Boundary(f, end, q + a + n + r)))
  {
    var q', a', n', r' := Boundary(f, end, q), Boundary(f, end, q + a), Boundary(f, end, q + a + n),
      Boundary(f, end, q + a + n + r);
    ForwardTo(f, end, 0, q, q, HEADER, q');
    ForwardTo(f, end, q, a, q + a, q', a');
    ForwardTo(f, end, q + a, n, q + a + n, a', n');
    ForwardTo(f, end, q + a + n, r, q + a + n + r, n', r');
    MemosAre(f, end, q, a, n, r, q', a', n', r');
  }

  lemma {:induction false} IndexOfBoundary(f: nat -> nat, end: nat, j: nat, k: nat, fuel: nat)
    requires HEADER <= end && Advances(f, end) && j <= k && Boundary(f, end, k) < end <= Boundary(f, end, j) + fuel
    ensures IndexAt(f, end, Boundary(f, end, k), Boundary(f, end, j), fuel) == k - j
    decreases k - j
  {
    BoundariesRise(f, end, j, k);
    if j < k {
      assert Boundary(f, end, j + 1) == f(Boundary(f, end, j));
      IndexOfBoundary(f, end, j + 1, k, fuel - 1);
    }
  }

  lemma BeforeBoundary(f: nat -> nat, end: nat, k: nat, n: nat)
    requires HEADER <= end && Advances(f, end) && Boundary(f, end, k) < end
    ensures Boundary(f, end, k) < Boundary(f, end, n) <==> k < n
  {
    if k < n {
      BoundariesRise(f, end, k, n);
    } else {
      BoundariesRise(f, end, n, k);
    }
  }

  /** The `k`-th record lies in the memo's bounds for exactly the section that the counts give it. */
  lemma MemoOfBoundary(f: nat -> nat, end: nat, k: nat, q: nat, a: nat, n: nat, r: nat)
    requires HEADER <= end && Advances(f, end) && Boundary(f, end, k) < end
    ensures MemoSection(MemosFrom(f, end, q, a, n, r), Boundary(f, end, k)) == SectionOfIndex(k, q, a, n, r)
  {
    MemoBounds(f, end, q, a, n, r);
    BoundariesRise(f, end, 0, k);
    BeforeBoundary(f, end, k, q);
    BeforeBoundary(f, end, k, q + a);
    BeforeBoundary(f, end, k, q + a + n);
    BeforeBoundary(f, end, k, q + a + n + r);
  }

  /**
   After a study, every record of any packet, well-formed or not, is put into the same section by the
   memo as by recounting, and that is the section its index falls into.
   */
  lemma {:induction false} MemoAgreesWithRecount(d: seq<byte>, k: nat)
    requires HEADER <= |d| && Boundary(Skipper(d), |d|, k) < |d|
    ensures var src := Boundary(Skipper(d), |d|, k);
            Section(d, Study(d), src) == Recount(d, src)
            == SectionOfIndex(k, Count(d, 0), Count(d, 1), Count(d, 2), Count(d, 3))
  {
    var f := Skipper(d);
    SkipperAdvances(d);
    MemoOfBoundary(f, |d|, k, Count(d, 0), Count(d, 1), Count(d, 2), Count(d, 3));
    IndexOfBoundary(f, |d|, 0, k, |d|);
  }
}
