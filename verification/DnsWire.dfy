/**
 A record on the wire, octet for octet (sections 4.1.1 to 4.1.3 of RFC 1035), and when a push succeeds: what
 `DnsPacket.Push` does, told without it.
 */
module DnsWire {
  import opened Wrappers
  import opened Bytes
  import opened DnsCompress
  import opened DnsCompressSound
  import opened DnsDict
  import opened DnsSections
  import opened DnsRecords
  import opened DnsPush
  import opened DnsPacket
  import opened DnsWalk
  import opened DnsRoundTrip
  import DnsCompressExact
  import DnsLimits
  import DnsRuns

  // ---------------------------------------------------------------- character strings

  /** All but the last character string are of 255 octets. */
  function StringLength(n: nat, k: nat): (l: byte)
    requires 255 * k < n
  {
    if n - 255 * k < 255 then n - 255 * k else 255
  }

  /** A text is cut every 255 octets, and each piece stands behind its length. */
  ghost predicate Strings(s: seq<byte>, w: seq<byte>) {
    |w| == |s| + (|s| + 254) / 255
    && (forall k: nat {:trigger StringLength(|s|, k)} :: 255 * k < |s| ==>
                                                         256 * k < |w| && w[256 * k] == StringLength(|s|, k))
    && forall i: nat :: i < |s| ==> i + i / 255 + 1 < |w| && w[i + i / 255 + 1] == s[i]
  }

  lemma ShortString(s: seq<byte>)
    requires |s| < 255
    ensures Strings(s, if s == [] then [] else [|s|] + s)
  {
    var w := if s == [] then [] else [|s|] + s;
    forall k: nat | 255 * k < |s| ensures 256 * k < |w| && w[256 * k] == StringLength(|s|, k) {
      assert k == 0;
    }
    forall i: nat | i < |s| ensures i + i / 255 + 1 < |w| && w[i + i / 255 + 1] == s[i] {
      assert i / 255 == 0;
    }
  }

  lemma Shifted(i: nat)
    requires i >= 255
    ensures (i - 255) / 255 == i / 255 - 1
  {
  }

  lemma LongString(s: seq<byte>, v: seq<byte>)
    requires |s| >= 255 && Strings(s[255..], v)
    ensures Strings(s, [255] + s[..255] + v)
  {
    var w := [255] + s[..255] + v;
    Shifted(|s| + 254);
    forall k: nat | 255 * k < |s| ensures 256 * k < |w| && w[256 * k] == StringLength(|s|, k) {
      if k > 0 {
        assert StringLength(|s| - 255, k - 1) == StringLength(|s|, k);
        assert w[256 * k] == v[256 * (k - 1)];
      }
    }
    forall i: nat | i < |s| ensures i + i / 255 + 1 < |w| && w[i + i / 255 + 1] == s[i] {
      if i >= 255 {
        Shifted(i);
        var j := i - 255;
        assert v[j + j / 255 + 1] == s[255..][j];
        assert w[i + i / 255 + 1] == v[i + i / 255 + 1 - 256];
      } else {
        assert i / 255 == 0;
      }
    }
  }

  /** What the pusher of TXT and SPF records writes. */
  lemma {:induction false} ChunksAreStrings(s: seq<byte>)
    ensures Strings(s, Chunks(s))
    decreases |s|
  {
    if |s| < 255 {
      ShortString(s);
      assert s[..|s|] == s && s[|s|..] == [];
      assert s != [] ==> Chunks(s) == [|s|] + s + [];
    } else {
      ChunksAreStrings(s[255..]);
      LongString(s, Chunks(s[255..]));
    }
  }

  // ---------------------------------------------------------------- a record

  /** A number of two octets, the higher one first. */
  function TwoOctets(n: nat): (s: seq<byte>)
    ensures |s| == 2
  {
    [n / 256 % 256, n % 256]
  }

  /** A number of four octets without its top bit. */
  function FourOctets(n: nat): (s: seq<byte>)
    ensures |s| == 4
  {
    [n / 0x100_0000 % 128, n / 0x1_0000 % 256, n / 256 % 256, n % 256]
  }

  /** The data, where `w` is the name in it as it is written. */
  function DataOctets(rd: RData, w: seq<byte>): seq<byte> {
    match rd
    case A(addr) => addr
    case Aaaa(addr) => addr
    case Host(_) => w
    case Mx(preference, _) => TwoOctets(preference) + w
    case Srv(priority, weight, port, _) => TwoOctets(priority) + TwoOctets(weight) + TwoOctets(port) + w
    case Txt(text) => Chunks(text)
    case Raw(octets) => octets
  }

  /** The record: owner, type, class and, but for a question, time to live, length and data. */
  function RecordOctets(e: Entry, owner: seq<byte>, w: seq<byte>): seq<byte> {
    var data := DataOctets(e.rd, w);
    owner + TwoOctets(e.typ) + TwoOctets(e.cls)
    + if e.section == 1 then [] else FourOctets(e.ttl) + TwoOctets(|data|) + data
  }

  function Room(size: nat, at: nat): nat {
    if at < size then size - at else 0
  }

  /** The owner as it is written behind the packet. */
  function Owner(s: State, size: nat, e: Entry): seq<byte> {
    Compressed(NamesOf(s.d, s.dict), e.name, Room(size, |s.d|))
  }

  /** The packet up to the data's length. */
  function UpToData(s: State, size: nat, e: Entry): Body {
    var d := s.d + Owner(s, size, e);
    Body(d + TwoOctets(e.typ) + TwoOctets(e.cls) + FourOctets(e.ttl), DictAdded(d, s.dict, |s.d|))
  }

  /** How many octets of the data come before the name. */
  function Front(rd: RData): nat {
    match rd
    case Mx(_, _) => 2
    case Srv(_, _, _, _) => 6
    case _ => 0
  }

  function NameOf(rd: RData): seq<byte> {
    match rd
    case Host(name) => name
    case Mx(_, exchange) => exchange
    case Srv(_, _, _, target) => target
    case _ => []
  }

  /** The name in the data as it is written. */
  function DataName(s: State, size: nat, e: Entry): seq<byte> {
    var b := UpToData(s, size, e);
    Compressed(NamesOf(b.d, b.dict), NameOf(e.rd), Room(size, |b.d| + 2 + Front(e.rd)))
  }

  /** All that the push writes behind the packet. */
  function Octets(s: State, size: nat, e: Entry): seq<byte> {
    RecordOctets(e, Owner(s, size, e), if e.section == 1 then [] else DataName(s, size, e))
  }

  // ---------------------------------------------------------------- it is what is written

  lemma OwnerIs(s: State, size: nat, e: Entry)
    requires |s.d| <= size
    ensures var d := s.d + Owner(s, size, e);
            PushName(Body(s.d, s.dict), size, e.name)
            == if |d| <= size then Some(Body(d, DictAdded(d, s.dict, |s.d|))) else None
  {
  }

  lemma NameWritten(names: seq<Trail>, name: seq<byte>, lim: nat)
    requires AllValid(names) && IsName(name)
    ensures |Compressed(names, name, lim)| >= 1
  {
    NameLabels(name);
  }

  /** Data with a name in it. */
  lemma NamedIs(names: seq<Trail>, room: int, front: seq<byte>, name: seq<byte>, w: seq<byte>)
    requires AllValid(names) && w == Compressed(names, name, if room > |front| then room - |front| else 0) && |w| >= 1
    ensures WithName(names, room, front, name) == if room >= |front| + |w| then Some(front + w) else None
  {
  }

  lemma PayloadIs(names: seq<Trail>, size: nat, at: nat, t: nat, rd: RData, w: seq<byte>)
    requires AllValid(names) && Fits(t, rd) && w == Compressed(names, NameOf(rd), Room(size, at + Front(rd)))
    ensures var data := DataOctets(rd, w); Payload(names, size - at, rd)
                                           == if at + |data| <= size then Some(data) else None
  {
    if rd.Host? || rd.Mx? || rd.Srv? {
      NameWritten(names, NameOf(rd), Room(size, at + Front(rd)));
    }
    match rd {
      case Host(name) => NamedIs(names, size - at, [], name, w); assert [] + w == w;
      case Mx(p, exchange) => NamedIs(names, size - at, TwoOctets(p), exchange, w);
      case Srv(p, q, port, target) => NamedIs(names, size - at, TwoOctets(p) + TwoOctets(q) + TwoOctets(port), target,
                                              w);
      case _ =>
    }
  }

  lemma DataIs(b: Body, size: nat, t: nat, rd: RData, w: seq<byte>)
    requires Fits(t, rd) && w == Compressed(NamesOf(b.d, b.dict), NameOf(rd), Room(size, |b.d| + 2 + Front(rd)))
    ensures var data, p := DataOctets(rd, w), PushData(b, size, rd);
            (p.Some? <==> |b.d| + 2 + |data| <= size) && (p.Some? ==> p.value.d == b.d + TwoOctets(|data|) + data)
  {
    PayloadIs(NamesOf(b.d, b.dict), size, |b.d| + 2, t, rd, w);
  }

  lemma FieldsAre(s: State, size: nat, e: Entry)
    requires e.section != 1 && |s.d + Owner(s, size, e)| <= size
    ensures var n := Body(s.d + Owner(s, size, e), DictAdded(s.d + Owner(s, size, e), s.dict, |s.d|));
            PushFields(n, size, false, e.typ, e.cls, e.ttl, e.rd)
            == if |n.d| + 10 <= size then PushData(UpToData(s, size, e), size, e.rd) else None
  {
    var d := s.d + Owner(s, size, e);
    assert d + Fixed(e.typ, e.cls) + Ttl(e.ttl) == d + TwoOctets(e.typ) + TwoOctets(e.cls) + FourOctets(e.ttl);
  }

  lemma PartsJoin(d: seq<byte>, a: seq<byte>, b: seq<byte>, c: seq<byte>, x: seq<byte>, y: seq<byte>, z: seq<byte>)
    ensures d + a + b + c + x + y + z == d + (a + b + c + (x + y + z))
    ensures d + a + b + c == d + (a + b + c + [])
  {
  }

  /** The record is written if all of it fits, and then these are its octets. */
  lemma WrittenIs(s: State, size: nat, e: Entry)
    requires |s.d| <= size && Writable(e)
    ensures var w, o := Written(s, size, e), Octets(s, size, e);
            (w.Some? <==> |s.d| + |o| <= size) && (w.Some? ==> w.value.d == s.d + o)
  {
    OwnerIs(s, size, e);
    var owner := Owner(s, size, e);
    if |s.d + owner| <= size {
      var data := DataOctets(e.rd, DataName(s, size, e));
      PartsJoin(s.d, owner, TwoOctets(e.typ), TwoOctets(e.cls), FourOctets(e.ttl), TwoOctets(|data|), data);
      if e.section == 1 {
        assert s.d + owner + Fixed(e.typ, e.cls) == s.d + owner + TwoOctets(e.typ) + TwoOctets(e.cls);
      } else {
        FieldsAre(s, size, e);
        DataIs(UpToData(s, size, e), size, e.typ, e.rd, DataName(s, size, e));
      }
    }
  }

  // ---------------------------------------------------------------- the header

  /** The number in octets 4 + 2 * i and 5 + 2 * i of the header. */
  function Counted(d: seq<byte>, i: nat): nat
    requires 12 <= |d| && i < 4
  {
    d[4 + 2 * i] as int * 256 + d[5 + 2 * i]
  }

  /** Which count a section has: questions, answers, authorities and additional records. */
  function Place(section: nat): nat {
    if section == 1 then 0 else if section == 2 then 1 else if section == 4 then 2 else 3
  }

  /** Some later section has records. */
  predicate LaterHas(d: seq<byte>, section: nat)
    requires 12 <= |d|
  {
    exists i :: Place(section) < i < 4 && Counted(d, i) != 0
  }

  lemma VerdictIs(d: seq<byte>, section: nat)
    requires 12 <= |d|
    ensures Verdict(d, section) == if section !in {1, 2, 4, 8}
            then NoSection else if LaterHas(d, section) then OutOfOrder else Done
  {
    forall i: nat | i < 4 ensures Counted(d, i) == Count(d, i) {
    }
    assert Later(d, 2) == Count(d, 3) && Later(d, 1) == Count(d, 2) + Later(d, 2)
      && Later(d, 0) == Count(d, 1) + Later(d, 1);
    if Later(d, Place(section)) != 0 {
      assert Counted(d, 1) != 0 || Counted(d, 2) != 0 || Counted(d, 3) != 0;
    }
  }

  /** One of the counts went up, modulo 2^16, and nothing else before the records changed. */
  predicate OneMore(d: seq<byte>, d': seq<byte>, i: nat)
    requires 12 <= |d| && 12 <= |d'|
  {
    d'[..4] == d[..4]
    && forall j: nat :: j < 4 ==> Counted(d', j) == if i == j then (Counted(d, j) + 1) % 0x1_0000 else Counted(d, j)
  }

  lemma CountedUpIs(b: seq<byte>, i: nat, d': seq<byte>)
    requires 12 <= |b| && i < 4 && d' == CountedUp(b, i)
    ensures |d'| == |b| && Counted(d', i) == (Counted(b, i) + 1) % 0x1_0000
    ensures (forall k :: 0 <= k < |b| && k != 4 + 2 * i && k != 5 + 2 * i ==> d'[k] == b[k]) && d'[12..] == b[12..]
  {
    var p := 4 + 2 * i;
    assert d'[p] == d'[p..p + 2][0] && d'[p + 1] == d'[p..p + 2][1];
    forall k | 0 <= k < |b| && !(p <= k < p + 2) ensures d'[k] == b[k] {
      if k < p {
        assert d'[..p][k] == b[..p][k];
      } else {
        assert d'[p + 2..][k - p - 2] == b[p + 2..][k - p - 2];
      }
    }
  }

  lemma CountsOne(d: seq<byte>, b: seq<byte>, i: nat)
    requires 12 <= |d| && d <= b && i < 4
    ensures var d' := CountedUp(b, i); OneMore(d, d', i) && d'[12..] == b[12..]
  {
    CountedUpIs(b, i, CountedUp(b, i));
    forall k | 0 <= k < 12 ensures b[k] == d[k] {
    }
    assert b[..4] == d[..4];
  }

  lemma EnteredIs(d: seq<byte>, o: seq<byte>, b: seq<byte>, i: nat)
    requires 12 <= |d| && b == d + o && i < 4
    ensures var d' := CountedUp(b, i); 12 <= |d'| && OneMore(d, d', i) && d'[12..] == d[12..] + o
  {
    CountsOne(d, b, i);
    assert b[12..] == d[12..] + o;
  }

  /** A push, for any packet: its verdict, and the octets of the packet after it. */
  lemma {:induction false} PushExactly(s: State, size: nat, e: Entry)
    requires 12 <= |s.d| <= size && Writable(e)
    ensures var (outcome, s') := Push(s, size, e);
            outcome == (if |s.d| + |Octets(s, size, e)| > size then NoBufs
                        else if e.section !in {1, 2, 4, 8} then NoSection
                        else if LaterHas(s.d, e.section) then OutOfOrder
                        else Done)
            && if outcome == Done then 12 <= |s'.d| && OneMore(s.d, s'.d, Place(e.section))
                                       && s'.d[12..] == s.d[12..] + Octets(s, size, e)
               else s'.d == s.d
  {
    WrittenIs(s, size, e);
    var w := Written(s, size, e);
    if w.Some? {
      SameVerdict(s.d, w.value.d, e.section);
      VerdictIs(s.d, e.section);
      if Verdict(s.d, e.section) == Done {
        EnteredIs(s.d, Octets(s, size, e), w.value.d, Place(e.section));
      }
    }
  }

  // ---------------------------------------------------------------- names written again

  /**
   After any run the names of the dictionary repeat no label, so `DnsCompressExact` says what the next name becomes.
   */
  lemma {:induction false} RunNamesDistinct(size: nat, es: seq<Entry>)
    requires HEADER <= size <= 65535 && DnsRuns.TameRun(size, es)
    ensures var s := DnsRuns.After(size, es).s; DnsCompressExact.AllDistinct(NamesOf(s.d, s.dict))
  {
    DnsRuns.RunsAreGood(size, es);
    var s := DnsRuns.After(size, es).s;
    SoundDictReadable(s.d, s.dict);
    var names := NamesOf(s.d, s.dict);
    forall m | 0 <= m < |names| ensures Distinct(names[m].labels) {
      assert names[m] == TrailAt(s.d, s.dict[m]);
      assert s.dict[m] == |s.d| ==> LabelsAt(Packet(s.d), |s.d|) == [];
    }
  }

  /** After the first record of a packet the dictionary has its owner, and nothing else. */
  lemma FirstRecorded(size: nat, e: Entry, s: State)
    requires size <= 65535 && CleanEntry(e) && e.section == 1 && LabelsOf(e.name) != []
             && Push(EMPTY, size, e) == (Done, s)
    ensures AllValid(NamesOf(s.d, s.dict)) && |NamesOf(s.d, s.dict)| == 1
    ensures var t := NamesOf(s.d, s.dict)[0]; t.pos[0] == 12 && SameNames(t.labels, LabelsOf(e.name))
  {
    EmptyIsLaid();
    assert Used(EMPTY.dict) == [];
    PushKeepsLaid(EMPTY, size, e, [HEADER], s);
    var b := Written(EMPTY, size, e).value;
    DnsRuns.TakenReads(EMPTY, size, e, MAX_POINTERS - 2, [HEADER], b, s);
    var n := PushName(Body(EMPTY.d, EMPTY.dict), size, e.name).value;
    DnsLimits.WrittenParts(EMPTY, size, e, n, b);
    DnsLimits.Recorded(n.d, EMPTY.dict, 12, InlineTarget(n.d, 12, 12));
    SoundDictReadable(s.d, s.dict);
  }

  lemma SameNamesChain(a: seq<Label>, b: seq<Label>, c: seq<Label>)
    requires SameNames(a, b) && SameNames(b, c)
    ensures SameNames(a, c)
  {
    forall i | 0 <= i < |a| ensures CaseEq(a[i], c[i]) {
      assert CaseEq(a[i], b[i]) && CaseEq(b[i], c[i]);
    }
  }

  /** The only name of a dictionary is known. */
  lemma OnlyIsKnown(names: seq<Trail>, ls: seq<Label>)
    requires AllValid(names) && |names| == 1 && ls != [] && names[0].pos[0] == 12 && SameNames(names[0].labels, ls)
    ensures DnsCompressExact.KnownAt(names, ls[0..], 0, 0)
  {
    assert names[0].labels[0..] == names[0].labels;
    assert ls[0..] == ls;
  }

  lemma KnownOwner(names: seq<Trail>, text: seq<byte>, lim: nat, o: seq<byte>)
    requires AllValid(names) && |names| == 1 && names[0].pos[0] == 12 && |Plain(text)| < lim
             && o == Compressed(names, text, lim)
    requires LabelsOf(text) != [] && DnsCompressExact.KnownAt(names, LabelsOf(text)[0..], 0, 0)
    ensures o == [0xC0, 12]
  {
    DnsCompressExact.KnownIsShort(names, text, lim, 0, 0, 0);
  }

  /** The owner of a packet's first question, written again in any mix of cases, is a pointer to the first. */
  lemma {:induction false} SecondTime(size: nat, e: Entry, s: State, again: Entry)
    requires size <= 65535 && CleanEntry(e) && e.section == 1 && LabelsOf(e.name) != []
             && Push(EMPTY, size, e) == (Done, s)
    requires SameNames(LabelsOf(e.name), LabelsOf(again.name)) && |s.d| + |Plain(again.name)| < size
    ensures Owner(s, size, again) == [0xC0, 12]
  {
    FirstRecorded(size, e, s);
    var names, ls := NamesOf(s.d, s.dict), LabelsOf(again.name);
    SameNamesChain(names[0].labels, LabelsOf(e.name), ls);
    OnlyIsKnown(names, ls);
    KnownOwner(names, again.name, Room(size, |s.d|), Owner(s, size, again));
  }

  // ---------------------------------------------------------------- the dictionary

  /** Where the pointer of a name goes to, if it has one behind labels of its own. */
  function PointsTo(names: seq<Trail>, name: seq<byte>, room: nat): Option<nat>
    requires AllValid(names)
  {
    var r := Search(names, LabelsOf(name), 0);
    if |Plain(name)| < room && r.At? && r.k > 0 then Some(r.target) else None
  }

  function OwnerPoints(s: State, size: nat, e: Entry): Option<nat> {
    PointsTo(NamesOf(s.d, s.dict), e.name, Room(size, |s.d|))
  }

  /** The first slot in use, or the first free one, that holds `t`. */
  predicate FirstSlot(dict: seq<nat>, t: nat, i: nat) {
    i < |dict| && dict[i] == t && forall j :: 0 <= j < i ==> dict[j] != t && dict[j] != 0
  }

  lemma {:induction false} UsedFirst(dict: seq<nat>, i: nat)
    requires FirstSlot(dict, 0, i)
    ensures |Used(dict)| == i
  {
    UsedIs(dict, i);
  }

  lemma SlotIsIndex(dict: seq<nat>, t: nat, i: nat)
    requires t != 0 && FirstSlot(dict, t, i)
    ensures t in Used(dict) && IndexOf(Used(dict), t) == i
  {
    assert i < |Used(dict)| by {
      if |Used(dict)| <= i {
        assert dict[|Used(dict)|] == 0;
      }
    }
    assert Used(dict)[i] == t;
    FirstIndex(Used(dict), t, i);
  }

  lemma {:induction false} FirstIndex(u: seq<nat>, t: nat, i: nat)
    requires i < |u| && u[i] == t && forall j :: 0 <= j < i ==> u[j] != t
    ensures IndexOf(u, t) == i
    decreases i
  {
    if i > 0 {
      FirstIndex(u[1..], t, i - 1);
    }
  }

  /** Some name in use is at `t`. */
  predicate InUse(dict: seq<nat>, t: Option<nat>) {
    t.Some? && t.value != 0 && exists i: nat :: i < |dict| && FirstSlot(dict, t.value, i)
  }

  lemma InUseIs(dict: seq<nat>, t: Option<nat>)
    ensures InUse(dict, t) <==> t.Some? && t.value in Used(dict)
  {
    if t.Some? && t.value in Used(dict) {
      IndexIsSlot(dict, t.value);
    } else if InUse(dict, t) {
      var i: nat :| i < |dict| && FirstSlot(dict, t.value, i);
      SlotIsIndex(dict, t.value, i);
    }
  }

  /** The slot that is written, if one is. */
  predicate Slot(dict: seq<nat>, t: Option<nat>, i: nat) {
    if InUse(dict, t) then FirstSlot(dict, t.value, i) else FirstSlot(dict, 0, i)
  }

  /** The name at `at` took slot `i`, if that is the one; if there is none the dictionary is as before. */
  ghost predicate TakesSlot(before: seq<nat>, after: seq<nat>, t: Option<nat>, at: nat, i: nat) {
    (Slot(before, t, i) ==> after == before[i := at]) && ((forall j: nat :: !Slot(before, t, j)) ==> after == before)
  }

  lemma SlotIs(d: seq<byte>, dict: seq<nat>, dn: nat, t: Option<nat>, i: nat)
    requires t == InlineTarget(d, dn, dn)
    ensures TakesSlot(dict, DictAdded(d, dict, dn), t, dn, i)
  {
    InUseIs(dict, t);
    if InUse(dict, t) {
      IndexIsSlot(dict, t.value);
      assert Slot(dict, t, IndexOf(Used(dict), t.value));
    } else {
      if Slot(dict, t, i) {
        UsedFirst(dict, i);
      }
      assert |Used(dict)| < |dict| ==> Slot(dict, t, |Used(dict)|);
    }
  }

  /**
   An owner that ends in a pointer takes the slot of the name pointed to, if that has one; any other takes the first
   free slot.
   */
  lemma {:induction false} DictionaryAfter(s: State, size: nat, e: Entry, n: Body, i: nat)
    requires IsName(e.name) && |s.d| <= size && PushName(Body(s.d, s.dict), size, e.name) == Some(n)
    ensures TakesSlot(s.dict, n.dict, OwnerPoints(s, size, e), |s.d|, i)
  {
    var names, lim := NamesOf(s.d, s.dict), Room(size, |s.d|);
    assert Stands(n.d, |s.d|, Compressed(names, e.name, lim));
    DnsLimits.InlineOfWritten(names, e.name, lim, n.d, |s.d|);
    SlotIs(n.d, s.dict, |s.d|, OwnerPoints(s, size, e), i);
  }

  function DataPoints(f: Body, size: nat, rd: RData): Option<nat> {
    PointsTo(NamesOf(f.d, f.dict), NameOf(rd), Room(size, |f.d| + 2 + Front(rd)))
  }

  /** A name in the data, behind `d1`. */
  lemma NameTakes(f: Body, names: seq<Trail>, name: seq<byte>, lim: nat, d1: seq<byte>, b: Body, i: nat)
    requires AllValid(names) && IsName(name) && b.d == d1 + Compressed(names, name, lim)
             && b.dict == DictAdded(b.d, f.dict, |d1|)
    ensures TakesSlot(f.dict, b.dict, PointsTo(names, name, lim), |d1|, i)
  {
    assert Stands(b.d, |d1|, Compressed(names, name, lim));
    DnsLimits.InlineOfWritten(names, name, lim, b.d, |d1|);
    SlotIs(b.d, f.dict, |d1|, PointsTo(names, name, lim), i);
  }

  /** The name in the data takes a slot, behind `f`, in records of types NS, CNAME, PTR and MX, and in no others. */
  ghost predicate DataRecorded(typ: nat, rd: RData, f: Body, size: nat, b: Body, i: nat) {
    if typ in {2, 5, 12, 15} then TakesSlot(f.dict, b.dict, DataPoints(f, size, rd), |f.d| + 2 + Front(rd), i)
    else b.dict == f.dict
  }

  lemma DataTakes(f: Body, size: nat, typ: nat, rd: RData, b: Body, i: nat)
    requires |f.d| <= size <= 65535 && Fits(typ, rd) && PushData(f, size, rd) == Some(b)
    ensures DataRecorded(typ, rd, f, size, b, i)
  {
    if typ in {2, 5, 12, 15} {
      NamedTakes(f, size, typ, rd, b, i);
    } else {
      OthersTake(f, size, typ, rd, b);
    }
  }

  lemma NamedTakes(f: Body, size: nat, typ: nat, rd: RData, b: Body, i: nat)
    requires |f.d| <= size <= 65535 && Fits(typ, rd) && typ in {2, 5, 12, 15} && PushData(f, size, rd) == Some(b)
    ensures TakesSlot(f.dict, b.dict, DataPoints(f, size, rd), |f.d| + 2 + Front(rd), i)
  {
    var d1, lim := NamePlaced(f, NamesOf(f.d, f.dict), size, typ, rd, b);
    NameTakes(f, NamesOf(f.d, f.dict), NameOf(rd), lim, d1, b, i);
  }

  lemma OthersTake(f: Body, size: nat, typ: nat, rd: RData, b: Body)
    requires Fits(typ, rd) && typ !in {2, 5, 12, 15} && PushData(f, size, rd) == Some(b)
    ensures b.dict == f.dict
  {
    DnsLimits.DataDict(f, size, rd, b);
  }

  lemma NamePlaced(f: Body, names: seq<Trail>, size: nat, typ: nat, rd: RData, b: Body)
    returns (d1: seq<byte>, lim: nat)
    requires |f.d| <= size <= 65535 && Fits(typ, rd) && typ in {2, 5, 12, 15} && names == NamesOf(f.d, f.dict)
    requires PushData(f, size, rd) == Some(b)
    ensures IsName(NameOf(rd)) && |d1| == |f.d| + 2 + Front(rd) && lim == Room(size, |d1|)
    ensures b.d == d1 + Compressed(names, NameOf(rd), lim) && b.dict == DictAdded(b.d, f.dict, |d1|)
  {
    d1, lim := PushDataIs(f, names, size, typ, rd, b);
  }

  lemma DataParts(s: State, size: nat, e: Entry, f: Body, b: Body)
    requires |s.d| <= size && Writable(e) && e.section != 1 && Written(s, size, e) == Some(b)
             && f == UpToData(s, size, e)
    ensures |f.d| <= size && PushData(f, size, e.rd) == Some(b) && Fits(e.typ, e.rd)
  {
    OwnerIs(s, size, e);
    FieldsAre(s, size, e);
  }

  /**
   After the owner the name in the data takes a slot in the same way, in records of types NS, CNAME, PTR and MX; in
   others, SRV among them, there is none or it is not recorded.
   */
  lemma {:induction false} DataDictionaryAfter(s: State, size: nat, e: Entry, f: Body, b: Body, i: nat)
    requires |s.d| <= size <= 65535 && Writable(e) && e.section != 1 && Written(s, size, e) == Some(b)
             && f == UpToData(s, size, e)
    ensures DataRecorded(e.typ, e.rd, f, size, b, i)
  {
    DataParts(s, size, e, f, b);
    DataTakes(f, size, e.typ, e.rd, b, i);
  }

  lemma IndexIsSlot(dict: seq<nat>, t: nat)
    requires t in Used(dict)
    ensures t != 0 && FirstSlot(dict, t, IndexOf(Used(dict), t))
    ensures forall i: nat :: FirstSlot(dict, t, i) ==> i == IndexOf(Used(dict), t)
  {
    FirstIs(Used(dict), t);
    forall i: nat | FirstSlot(dict, t, i) ensures i == IndexOf(Used(dict), t) {
      SlotIsIndex(dict, t, i);
    }
  }

  lemma {:induction false} FirstIs(u: seq<nat>, t: nat)
    requires t in u
    ensures forall j :: 0 <= j < IndexOf(u, t) ==> u[j] != t
  {
    if u[0] != t {
      FirstIs(u[1..], t);
    }
  }
}
