/**
 A packet as `dns_p_push` builds it: records in section order behind the header, the header's counts,
 the dictionary, and the memo of section bounds.
 */
module DnsPacket {
  import opened Wrappers
  import opened Bytes
  import opened DnsWalk
  import opened DnsRead
  import opened DnsCompress
  import opened DnsCompressSound
  import opened DnsDict
  import opened DnsSections
  import opened DnsRecords
  import opened DnsPush

  /** Section bits (DNS_S_QD, DNS_S_AN, DNS_S_NS, DNS_S_AR). */
  const QD: nat := 1
  const AN: nat := 2
  const NS: nat := 4
  const AR: nat := 8

  const DICT_SIZE: nat := 16

  /** A packet: its octets up to its end, its dictionary and its memo. */
  datatype State = State(d: seq<byte>, dict: seq<nat>, memos: Memos)

  datatype Entry = Entry(section: nat, name: seq<byte>, typ: nat, cls: nat, ttl: nat, rd: RData)

  /** DNS_ENOBUFS, DNS_EORDER and DNS_ESECTION. */
  datatype Outcome = Done | NoBufs | OutOfOrder | NoSection

  predicate Writable(e: Entry) {
    IsName(e.name) && (e.section != QD ==> Fits(e.typ, e.rd))
  }

  /** `dns_p_init`. */
  const EMPTY := State([0, 0, 0, 0, 0, 0, 0, 0, 0, 0, 0, 0], Zeros(DICT_SIZE), UNSTUDIED)

  /** Which of the header's counts a section has. */
  function Index(section: nat): (i: nat)
    ensures i < 4
  {
    if section == QD then 0 else if section == AN then 1 else if section == NS then 2 else 3
  }

  function Later(d: seq<byte>, i: nat): nat
    requires HEADER <= |d|
    decreases 3 - i
  {
    if i >= 3 then 0 else Count(d, i + 1) + Later(d, i + 1)
  }

  /** Records may not be pushed to a section once a later one has any. */
  function Verdict(d: seq<byte>, section: nat): Outcome
    requires HEADER <= |d|
  {
    if section !in {QD, AN, NS, AR} then NoSection
    else if Later(d, Index(section)) != 0 then OutOfOrder
    else Done
  }

  function CountedUp(d: seq<byte>, i: nat): (r: seq<byte>)
    requires HEADER <= |d| && i < 4
    ensures |r| == |d|
  {
    Put(d, 4 + 2 * i, Be16(Count(d, i) + 1))
  }

  function Base(m: Memos, i: nat): nat {
    if i == 0 then m.qd.base else if i == 1 then m.an.base else if i == 2 then m.ns.base else m.ar.base
  }

  /** The memo once section `i` reaches to `end`. */
  function Moved(m: Memos, i: nat, end: nat): Memos {
    var none := Memo(end, end);
    if i == 0 then Memos(m.qd.(end := end), none, none, none)
    else if i == 1 then Memos(m.qd, m.an.(end := end), none, none)
    else if i == 2 then Memos(m.qd, m.an, m.ns.(end := end), none)
    else Memos(m.qd, m.an, m.ns, m.ar.(end := end))
  }

  /** The dictionary once the owner name was written, whatever came of the rest. */
  function DictAfterOwner(b: Body, size: nat, name: seq<byte>): seq<nat> {
    var n := PushName(b, size, name);
    if n.None? then b.dict else n.value.dict
  }

  function Written(s: State, size: nat, e: Entry): (b: Option<Body>)
    ensures b.Some? ==> |s.d| <= |b.value.d|
  {
    PushRecord(Body(s.d, s.dict), size, e.section == QD, e.name, e.typ, e.cls, e.ttl, e.rd)
  }

  /** The packet once the record `b` was written and let in. */
  function Entered(m: Memos, b: Body, i: nat): State
    requires HEADER <= |b.d| && i < 4
  {
    State(CountedUp(b.d, i), b.dict, Moved(if Base(m, i) == 0 then Study(b.d) else m, i, |b.d|))
  }

  /** `dns_p_push`.  The order of the checks is the code's: room first, then the section. */
  function Push(s: State, size: nat, e: Entry): (r: (Outcome, State))
    requires HEADER <= |s.d|
    ensures |s.d| <= |r.1.d| && (r.0 != Done ==> r.1 == s.(dict := r.1.dict))
  {
    var b := Written(s, size, e);
    if b.None? then (NoBufs, s.(dict := DictAfterOwner(Body(s.d, s.dict), size, e.name)))
    else if Verdict(b.value.d, e.section) != Done then (Verdict(b.value.d, e.section), s.(dict := b.value.dict))
    else (Done, Entered(s.memos, b.value, Index(e.section)))
  }

  // ---------------------------------------------------------------- what every packet built by pushes is

  function Total(d: seq<byte>): nat
    requires HEADER <= |d|
  {
    Count(d, 0) + Later(d, 0)
  }

  /** Records at `offs`, as many as the counts say, the dictionary sound and the memo absent or fresh. */
  predicate Laid(s: State, offs: seq<nat>) {
    SoundBody(Body(s.d, s.dict))
    && Records(s.d, offs, Count(s.d, 0)) && offs[|offs| - 1] == |s.d| && |offs| - 1 == Total(s.d)
    && (s.memos == UNSTUDIED || s.memos == Study(s.d))
  }

  lemma EmptyIsLaid()
    ensures Laid(EMPTY, [HEADER])
  {
    assert Used(EMPTY.dict) == [];
  }

  /** The memo that says where the sections begin among the records at `offs`. */
  function MemosAt(offs: seq<nat>, q: nat, a: nat, n: nat, r: nat): Memos
    requires q + a + n + r < |offs|
  {
    Memos(Memo(HEADER, offs[q]), Memo(offs[q], offs[q + a]), Memo(offs[q + a], offs[q + a + n]),
          Memo(offs[q + a + n], offs[q + a + n + r]))
  }

  lemma BoundsAt(f: nat -> nat, end: nat, offs: seq<nat>, q: nat, a: nat, n: nat, r: nat)
    requires HEADER <= end && Advances(f, end) && q + a + n + r < |offs|
    requires forall i {:trigger offs[i]} :: 0 <= i < |offs| ==> Boundary(f, end, i) == offs[i]
    ensures MemosFrom(f, end, q, a, n, r) == MemosAt(offs, q, a, n, r)
  {
    MemoBounds(f, end, q, a, n, r);
  }

  /** The bounds of the sections are offsets of records. */
  lemma StudyIs(d: seq<byte>, offs: seq<nat>)
    requires HEADER <= |d| && Records(d, offs, Count(d, 0)) && Total(d) < |offs|
    ensures Study(d) == MemosAt(offs, Count(d, 0), Count(d, 1), Count(d, 2), Count(d, 3))
  {
    SkipperAdvances(d);
    forall i | 0 <= i < |offs| ensures Boundary(Skipper(d), |d|, i) == offs[i] {
      LayoutBoundaries(d, offs, Count(d, 0), i);
    }
    BoundsAt(Skipper(d), |d|, offs, Count(d, 0), Count(d, 1), Count(d, 2), Count(d, 3));
  }

  lemma CountsUp(d: seq<byte>, i: nat, d': seq<byte>)
    requires HEADER <= |d| && i < 4 && Count(d, i) < 65535 && d' == CountedUp(d, i)
    ensures SameBody(d', d) && d'[..4] == d[..4] && |d'| == |d|
    ensures forall j :: 0 <= j < 4 ==> Count(d', j) == Count(d, j) + (if i == j then 1 else 0)
  {
    var p, w := 4 + 2 * i, Be16(Count(d, i) + 1);
    assert d'[p] == d'[p..p + 2][0] && d'[p + 1] == d'[p..p + 2][1];
    forall k | 0 <= k < |d| && !(p <= k < p + 2) ensures d'[k] == d[k] {
      if k < p {
        assert d'[..p][k] == d[..p][k];
      } else {
        assert d'[p + 2..][k - p - 2] == d[p + 2..][k - p - 2];
      }
    }
  }

  lemma KeepsHeader(d: seq<byte>, d': seq<byte>)
    requires HEADER <= |d| && d <= d'
    ensures d'[..12] == d[..12] && forall j :: 0 <= j < 4 ==> Count(d', j) == Count(d, j)
  {
    assert forall k :: 0 <= k < |d| ==> d'[k] == d[k];
  }

  lemma MovedAt(offs: seq<nat>, end: nat, m: Memos, i: nat, q: nat, a: nat, n: nat, r: nat)
    requires i < 4 && |offs| == q + a + n + r + 1
    requires (i < 3 ==> r == 0) && (i < 2 ==> n == 0) && (i < 1 ==> a == 0)
    requires m == MemosAt(offs, q, a, n, r) || m == MemosAt(offs + [end], q, a, n, r) || (i == 0 && m.qd.base == HEADER)
    ensures Moved(m, i, end) == MemosAt(offs + [end], if i == 0 then q + 1 else q, if i == 1 then a + 1 else a,
                                  if i == 2 then n + 1 else n, if i == 3 then r + 1 else r)
  {
  }

  lemma NoLater(d: seq<byte>, i: nat)
    requires HEADER <= |d| && i < 4 && Later(d, i) == 0
    ensures (i < 3 ==> Count(d, 3) == 0) && (i < 2 ==> Count(d, 2) == 0) && (i < 1 ==> Count(d, 1) == 0)
  {
    assert i < 2 ==> Later(d, 2) == 0;
    assert i < 1 ==> Later(d, 1) == 0;
  }

  lemma TotalIs(d: seq<byte>)
    requires HEADER <= |d|
    ensures Total(d) == Count(d, 0) + Count(d, 1) + Count(d, 2) + Count(d, 3)
  {
    assert Later(d, 2) == Count(d, 3);
    assert Later(d, 1) == Count(d, 2) + Count(d, 3);
  }

  lemma StudyAt(d: seq<byte>, offs: seq<nat>, q: nat, a: nat, n: nat, r: nat)
    requires HEADER <= |d| && Records(d, offs, q) && q + a + n + r < |offs|
    requires q == Count(d, 0) && a == Count(d, 1) && n == Count(d, 2) && r == Count(d, 3)
    ensures Study(d) == MemosAt(offs, q, a, n, r)
  {
    TotalIs(d);
    StudyIs(d, offs);
  }

  /** Study of the packet with the record counted. */
  lemma StudyCounted(d: seq<byte>, b: seq<byte>, d': seq<byte>, offs: seq<nat>, i: nat, q: nat, a: nat, n: nat, r: nat)
    requires HEADER <= |d| && d <= b && i < 4 && Count(d, i) < 65535 && d' == CountedUp(b, i)
             && |offs| == q + a + n + r + 1
    requires q == Count(d, 0) && a == Count(d, 1) && n == Count(d, 2) && r == Count(d, 3)
    requires Records(d', offs + [|b|], Count(d', 0))
    ensures Study(d') == MemosAt(offs + [|b|], if i == 0 then q + 1 else q, if i == 1 then a + 1 else a,
                           if i == 2 then n + 1 else n, if i == 3 then r + 1 else r)
  {
    KeepsHeader(d, b);
    CountsUp(b, i, d');
    StudyAt(d', offs + [|b|], if i == 0 then q + 1 else q, if i == 1 then a + 1 else a,
            if i == 2 then n + 1 else n, if i == 3 then r + 1 else r);
  }

  /** Study of the packet before the record is counted. */
  lemma StudyUncounted(d: seq<byte>, b: seq<byte>, offs: seq<nat>, q: nat, a: nat, n: nat, r: nat)
    requires HEADER <= |d| && d <= b && |offs| == q + a + n + r + 1
    requires q == Count(d, 0) && a == Count(d, 1) && n == Count(d, 2) && r == Count(d, 3)
    requires Records(b, offs + [|b|], Count(b, 0))
    ensures Study(b) == MemosAt(offs + [|b|], q, a, n, r)
  {
    KeepsHeader(d, b);
    StudyAt(b, offs + [|b|], q, a, n, r);
  }

  lemma BasesLieBehind(d: seq<byte>, offs: seq<nat>, q: nat, a: nat, n: nat, r: nat, i: nat)
    requires Records(d, offs, q) && q + a + n + r < |offs|
    ensures Base(MemosAt(offs, q, a, n, r), i) >= HEADER
  {
    OffsetsRise(d, offs, q, q, q);
    OffsetsRise(d, offs, q, q + a, q + a);
    OffsetsRise(d, offs, q, q + a + n, q + a + n);
  }

  /** The memo moved on is the memo of a fresh study. */
  lemma {:induction false} MovedIsFresh(m: Memos, d: seq<byte>, b: seq<byte>, d': seq<byte>, offs: seq<nat>, i: nat)
    requires HEADER <= |d| && d <= b && i < 4 && Later(d, i) == 0 && |offs| - 1 == Total(d)
    requires Count(d, i) < 65535 && d' == CountedUp(b, i)
    requires Records(d, offs, Count(d, 0)) && Records(d', offs + [|b|], Count(d', 0))
    requires i != 0 ==> Records(b, offs + [|b|], Count(b, 0))
    requires m == UNSTUDIED || m == Study(d)
    ensures Moved(if Base(m, i) == 0 then Study(b) else m, i, |b|) == Study(d')
  {
    var q, a, n, r := Count(d, 0), Count(d, 1), Count(d, 2), Count(d, 3);
    NoLater(d, i);
    TotalIs(d);
    BasesLieBehind(d, offs, q, a, n, r, i);
    StudyAt(d, offs, q, a, n, r);
    StudyCounted(d, b, d', offs, i, q, a, n, r);
    if i != 0 {
      StudyUncounted(d, b, offs, q, a, n, r);
    }
    MovedAt(offs, |b|, if Base(m, i) == 0 then Study(b) else m, i, q, a, n, r);
  }

  /** The record just written stands behind the others, and stays there once it is counted. */
  lemma WrittenIsLaid(d: seq<byte>, b: seq<byte>, d': seq<byte>, offs: seq<nat>, i: nat)
    requires HEADER <= |d| && d <= b && i < 4 && Later(d, i) == 0 && |offs| - 1 == Total(d)
    requires SameBody(b, d) && Count(d, i) < 65535 && d' == CountedUp(b, i)
    requires Records(d, offs, Count(d, 0)) && offs[|offs| - 1] == |d| && RecordAt(b, i == 0, |d|, |b|)
    ensures Records(d', offs + [|b|], Count(d', 0)) && (i != 0 ==> Records(b, offs + [|b|], Count(b, 0)))
    ensures |offs| == Total(d') && SameBody(d', b)
  {
    KeepsHeader(d, b);
    CountsUp(b, i, d');
    TotalIs(d);
    TotalIs(d');
    NoLater(d, i);
    RecordsGrow(d, b, offs, Count(d, 0));
    if i != 0 {
      RecordsAppend(b, offs, Count(d, 0), false, |b|);
    }
    RecordsGrow(b, d', offs, Count(d, 0));
    RecordGrow(b, d', i == 0, |d|, |b|);
    RecordsAppend(d', offs, Count(d, 0), i == 0, |d'|);
  }

  lemma TotalBound(d: seq<byte>, offs: seq<nat>)
    requires HEADER <= |d| && Records(d, offs, Count(d, 0)) && |offs| - 1 == Total(d)
    ensures Total(d) + HEADER <= |d|
  {
    OffsetsRise(d, offs, Count(d, 0), 0, |offs| - 1);
  }

  /** The counts are part of the packet, so what was written does not change the verdict. */
  lemma SameVerdict(d: seq<byte>, b: seq<byte>, section: nat)
    requires HEADER <= |d| && d <= b
    ensures Verdict(b, section) == Verdict(d, section)
  {
    KeepsHeader(d, b);
    assert Later(b, 2) == Later(d, 2);
    assert Later(b, 1) == Later(d, 1);
  }

  lemma EnteredIsLaid(s: State, b: Body, i: nat, offs: seq<nat>, s': State)
    requires Laid(s, offs) && Kept(s.d, b) && |b.d| <= 65535 && i < 4 && Later(s.d, i) == 0
    requires RecordAt(b.d, i == 0, |s.d|, |b.d|) && s' == Entered(s.memos, b, i)
    ensures Laid(s', offs + [|b.d|]) && s'.memos == Study(s'.d)
    ensures Count(s.d, i) < 65535 && Settled(s'.d, s'.dict)
  {
    TotalIs(s.d);
    TotalBound(s.d, offs);
    KeepsHeader(s.d, b.d);
    WrittenIsLaid(s.d, b.d, s'.d, offs, i);
    GrowKeepsSound(b.d, b.dict, s'.d);
    MovedIsFresh(s.memos, s.d, b.d, s'.d, offs, i);
  }

  lemma SameSlice(b: seq<byte>, d': seq<byte>, s: nat, t: nat)
    requires SameBody(d', b) && 12 <= s <= t <= |b|
    ensures d'[s..t] == b[s..t]
  {
  }

  lemma RecordStandsCounted(o: nat, b: seq<byte>, i: nat, d': seq<byte>, question: bool, typ: nat, cls: nat, ttl: nat)
    requires HEADER <= |b| && i < 4 && Count(b, i) < 65535 && d' == CountedUp(b, i)
             && RecordStands(b, question, o, typ, cls, ttl)
    ensures RecordStands(d', question, o, typ, cls, ttl)
  {
    CountsUp(b, i, d');
    SkipGrow(b, d', o);
    var s := Skip(b, o);
    SameSlice(b, d', s, s + 4);
    if !question {
      SameSlice(b, d', s + 4, s + 8);
    }
  }

  /** A record that was let in stands behind the others; names, counts and memo agree with it. */
  lemma {:induction false} PushKeepsLaid(s: State, size: nat, e: Entry, offs: seq<nat>, s': State)
    requires Laid(s, offs) && Writable(e) && size <= 65535 && Push(s, size, e) == (Done, s')
    ensures Laid(s', offs + [|s'.d|]) && s'.memos == Study(s'.d)
    ensures SameBody(s'.d, s.d) && |s.d| < |s'.d| <= size && Settled(s'.d, s'.dict)
    ensures RecordStands(s'.d, e.section == QD, |s.d|, e.typ, e.cls, e.ttl)
    ensures forall j :: 0 <= j < 4 ==> Count(s'.d, j) == Count(s.d, j) + (if j == Index(e.section) then 1 else 0)
  {
    var b, i := Written(s, size, e).value, Index(e.section);
    PushRecordSound(Body(s.d, s.dict), size, e.section == QD, e.name, e.typ, e.cls, e.ttl, e.rd);
    SameVerdict(s.d, b.d, e.section);
    EnteredIsLaid(s, b, i, offs, s');
    KeepsHeader(s.d, b.d);
    CountsUp(b.d, i, s'.d);
    RecordStandsCounted(|s.d|, b.d, i, s'.d, e.section == QD, e.typ, e.cls, e.ttl);
  }
}
