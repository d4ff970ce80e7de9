/**
 What was pushed is what is parsed: head, owner name and data of a record, and of every record before it.
 */
module DnsRoundTrip {
  import opened Wrappers
  import opened Bytes
  import opened DnsWalk
  import opened DnsRead
  import opened DnsCompress
  import opened DnsCompressSound
  import opened DnsDict
  import opened DnsSections
  import opened DnsText
  import opened DnsRecords
  import opened DnsPush
  import opened DnsPacket
  import opened DnsParse

  // ---------------------------------------------------------------- clean names stay clean

  lemma CleanRelax(d: seq<byte>, dict: seq<nat>, cap: nat, cap': nat)
    requires CleanDict(d, dict, cap) && cap <= cap'
    ensures CleanDict(d, dict, cap')
  {
    forall i | 0 <= i < |Used(dict)| && dict[i] != |d|
      ensures ReadsOk(View(d, 12, cap'), dict[i]) && Clean(LabelsAt(View(d, 12, cap'), dict[i]))
    {
      GrowKeepsName(d, cap, dict[i], d, cap');
    }
  }

  /** A clean owner name reads back, and the dictionary stays clean. */
  lemma OwnerReads(b: Body, size: nat, name: seq<byte>, cap: nat, n: Body)
    requires SoundBody(b) && CleanDict(b.d, b.dict, cap) && cap < MAX_POINTERS
    requires IsName(name) && Clean(LabelsOf(name)) && PushName(b, size, name) == Some(n)
    ensures ReadsBack(n.d, cap + 1, |b.d|, LabelsOf(name)) && CleanDict(n.d, n.dict, cap + 1)
  {
    var w := Compressed(NamesOf(b.d, b.dict), name, size - |b.d|);
    PushNameSound(b, size, name);
    SoundDictReadable(b.d, b.dict);
    AppendedSameBody(b.d, w);
    CompressedReads(b.d, b.dict, cap, name, size - |b.d|, n.d);
    ReadsBackClean(n.d, cap + 1, |b.d|, LabelsOf(name));
    PushKeepsClean(b.d, b.dict, cap, n.d);
  }

  lemma CleanGrows(b: Body, cap: nat, d': seq<byte>)
    requires Kept(b.d, b) && CleanDict(b.d, b.dict, cap) && SameBody(d', b.d)
    ensures CleanDict(d', b.dict, cap)
  {
    GrowKeepsClean(b.d, b.dict, cap, d');
  }

  /** A name in the data reads back, and the dictionary stays clean; if the name is clean, also when it is recorded. */
  lemma DataNameReadsBack(b: Body, front: seq<byte>, name: seq<byte>, lim: nat, cap: nat, d1: seq<byte>, d': seq<byte>)
    requires Kept(b.d, b) && CleanDict(b.d, b.dict, cap) && cap < MAX_POINTERS && IsName(name)
             && NulFree(LabelsOf(name))
    requires d1 == b.d + front && d' == d1 + Compressed(NamesOf(b.d, b.dict), name, lim)
    ensures ReadsBack(d', cap + 1, |d1|, LabelsOf(name))
    ensures CleanDict(d', b.dict, cap + 1)
    ensures Clean(LabelsOf(name)) ==> CleanDict(d', DictAdded(d', b.dict, |d1|), cap + 1)
  {
    DataNameReads(b, front, name, lim, d1, d');
    NamesGrow(b.d, b.dict, d1);
    CleanGrows(b, cap, d1);
    SoundDictReadable(d1, b.dict);
    AppendedSameBody(d1, Compressed(NamesOf(b.d, b.dict), name, lim));
    CompressedReads(d1, b.dict, cap, name, lim, d');
    if Clean(LabelsOf(name)) {
      ReadsBackClean(d', cap + 1, |d1|, LabelsOf(name));
      PushKeepsClean(d1, b.dict, cap, d');
    }
    KeptRefl(b.d, Body(d1, b.dict));
    CleanGrows(Body(d1, b.dict), cap, d');
    CleanRelax(d', b.dict, cap, cap + 1);
  }

  /** Names in the data are clean, or merely free of NUL where they do not enter the dictionary. */
  predicate CleanData(rd: RData) {
    NameIn(rd).Some? ==>
      NulFree(LabelsOf(NameIn(rd).value.name)) && (NameOffset(rd).Some? ==> Distinct(LabelsOf(NameIn(rd).value.name)))
  }

  predicate NamedAt(d: seq<byte>, cap: nat, p: nat, len: nat, n: Named) {
    |n.front| < len && Stands(d, p, n.front) && ReadsBack(d, cap, p + |n.front|, LabelsOf(n.name))
  }

  /** The data `rd` stands at `p`, `len` octets of it. */
  predicate DataAt(d: seq<byte>, cap: nat, p: nat, len: nat, rd: RData) {
    if NameIn(rd).None? then len == |Flat(rd)| && Stands(d, p, Flat(rd)) else NamedAt(d, cap, p, len, NameIn(rd).value)
  }

  lemma StandsIn(d: seq<byte>, a: seq<byte>, w: seq<byte>, d': seq<byte>)
    requires d + (a + w) <= d'
    ensures Stands(d', |d| + |a|, w)
  {
    forall i | 0 <= i < |w| ensures d'[|d| + |a| + i] == w[i] {
      assert d'[|d| + |a| + i] == (d + (a + w))[|d| + |a| + i];
    }
  }

  /** [p, p + len) is what follows the two length octets behind `d`. */
  predicate DataPlace(d: seq<byte>, d': seq<byte>, p: nat, len: nat) {
    p == |d| + 2 && |d'| == p + len
  }

  lemma FlatDataReads(b: Body, rd: RData, cap: nat, d': seq<byte>, p: nat, len: nat)
    requires Kept(b.d, b) && CleanDict(b.d, b.dict, cap) && NameIn(rd).None?
             && d' == b.d + (Be16(|Flat(rd)|) + Flat(rd))
    requires DataPlace(b.d, d', p, len)
    ensures DataAt(d', cap + 1, p, len, rd) && CleanDict(d', b.dict, cap + 1)
  {
    StandsIn(b.d, Be16(|Flat(rd)|), Flat(rd), d');
    AppendedSameBody(b.d, Be16(|Flat(rd)|) + Flat(rd));
    CleanGrows(b, cap, d');
    CleanRelax(d', b.dict, cap, cap + 1);
  }

  lemma NameStands(d: seq<byte>, cap: nat, p: nat, len: nat, n: Named, q: nat)
    requires q == p + |n.front| < p + len && Stands(d, p, n.front) && ReadsBack(d, cap, q, LabelsOf(n.name))
    ensures NamedAt(d, cap, p, len, n)
  {
  }

  lemma NamedDataReads(b: Body, octets: seq<byte>, n: Named, lim: nat, cap: nat, d1: seq<byte>, d': seq<byte>, p: nat,
                       len: nat)
    requires Kept(b.d, b) && CleanDict(b.d, b.dict, cap) && cap < MAX_POINTERS && IsName(n.name)
             && NulFree(LabelsOf(n.name))
    requires |octets| == 2 && d1 == b.d + (octets + n.front) && d' == d1 + Compressed(NamesOf(b.d, b.dict), n.name, lim)
    requires DataPlace(b.d, d', p, len)
    ensures NamedAt(d', cap + 1, p, len, n)
    ensures CleanDict(d', b.dict, cap + 1)
    ensures Clean(LabelsOf(n.name)) ==> CleanDict(d', DictAdded(d', b.dict, |d1|), cap + 1)
  {
    DataNameReads(b, octets + n.front, n.name, lim, d1, d');
    StandsIn(b.d, octets, n.front, d');
    assert |d1| == p + |n.front|;
    DataNameReadsBack(b, octets + n.front, n.name, lim, cap, d1, d');
    NameStands(d', cap + 1, p, len, n, |d1|);
  }

  lemma WrittenReads(b: Body, size: nat, rd: RData, cap: nat, d1: seq<byte>, lim: nat, b': Body, p: nat, len: nat)
    requires Kept(b.d, b) && CleanDict(b.d, b.dict, cap) && cap < MAX_POINTERS && CleanData(rd)
    requires DataWritten(b, NamesOf(b.d, b.dict), size, rd, d1, lim, b') && DataPlace(b.d, b'.d, p, len)
    ensures DataAt(b'.d, cap + 1, p, len, rd) && CleanDict(b'.d, b'.dict, cap + 1)
  {
    if NameIn(rd).None? {
      FlatDataReads(b, rd, cap, b'.d, p, len);
    } else {
      NamedDataReads(b, Be16(|b'.d| - |b.d| - 2), NameIn(rd).value, lim, cap, d1, b'.d, p, len);
    }
  }

  /** The data stands behind its length, and the dictionary stays clean. */
  lemma DataReads(b: Body, size: nat, t: nat, rd: RData, cap: nat, b': Body, p: nat, len: nat)
    requires Kept(b.d, b) && CleanDict(b.d, b.dict, cap) && cap < MAX_POINTERS && Fits(t, rd) && CleanData(rd)
    requires |b.d| <= size <= 65535 && PushData(b, size, rd) == Some(b') && DataPlace(b.d, b'.d, p, len)
    ensures DataAt(b'.d, cap + 1, p, len, rd) && CleanDict(b'.d, b'.dict, cap + 1)
  {
    var d1, lim := PushDataIs(b, NamesOf(b.d, b.dict), size, t, rd, b');
    WrittenReads(b, size, rd, cap, d1, lim, b', p, len);
  }

  // ---------------------------------------------------------------- parsing what stands there

  /** A name as parsed: anchored, and equal up to case. */
  predicate SameName(got: seq<byte>, name: seq<byte>) {
    LowerAll(got) == LowerAll(Anchored(name))
  }

  /** Names of at most 255 octets, counting the final dot, parse; longer ones do not fit the buffer. */
  predicate HostParsed(got: Option<seq<byte>>, name: seq<byte>) {
    if |Anchored(name)| < 256 then got.Some? && SameName(got.value, name) else got.None?
  }

  lemma HostReads(d: seq<byte>, cap: nat, p: nat, name: seq<byte>)
    requires IsName(name) && NulFree(LabelsOf(name)) && cap <= MAX_POINTERS && ReadsBack(d, cap, p, LabelsOf(name))
    ensures NameAt(View(d, 0, MAX_POINTERS), p).Name? && HostParsed(HostText(d, p), name)
  {
    ReadsBackText(d, cap, p, name);
    WalkExtends(Packet(d), View(d, 12, cap), p, |d|, 0);
    WalkRelax(Packet(d), p, |d|, 0, 0, |d|);
    var t := Text(NameAt(View(d, 12, cap), p).labels);
    assert |LowerAll(t)| == |LowerAll(Anchored(name))|;
  }

  lemma {:induction false} ChunksRead(d: seq<byte>, p: nat, text: seq<byte>, room: nat)
    requires Stands(d, p, Chunks(text))
    ensures p + |Chunks(text)| <= |d|
    ensures Unchunk(d, p, p + |Chunks(text)|, room) == if |text| <= room then Some(text) else None
    decreases |text|
  {
    if text != [] {
      var n: nat := if |text| < 255 then |text| else 255;
      StandsParts(d, p, [n] + text[..n], Chunks(text[n..]));
      StandsParts(d, p, [n], text[..n]);
      assert d[p + 0] == [n][0];
      assert d[p + 1..p + 1 + n] == text[..n];
      if n <= room {
        ChunksRead(d, p + 1 + n, text[n..], room - n);
        assert text[..n] + text[n..] == text;
      }
    }
  }

  /** What the parser makes of the data `rd`, given the caller's buffers. */
  predicate Parsed(rd: RData, got: Option<RData>, room: Room) {
    match rd
    case A(_) => got == Some(rd)
    case Aaaa(_) => got == Some(rd)
    case Txt(text) => got == if |text| <= room.text then Some(rd) else None
    case Raw(octets) => got == if |octets| <= room.raw then Some(rd) else None
    case Host(name) =>
      if |Anchored(name)| < 256 then got.Some? && got.value.Host? && SameName(got.value.name, name) else got.None?
    case Mx(p, name) =>
      if |Anchored(name)| < 256 then
        got.Some? && got.value.Mx? && got.value.preference == p && SameName(got.value.exchange, name)
      else got.None?
    case Srv(p, w, port, name) =>
      if room.slack >= 6 && |Anchored(name)| < 256 then
        got.Some? && got.value.Srv? && got.value.priority == p && got.value.weight == w && got.value.port == port
        && SameName(got.value.target, name)
      else got.None?
  }

  lemma Read16Stands(d: seq<byte>, p: nat, n: nat, s: seq<byte>)
    requires n < 65536 && 2 <= |s| && s[..2] == Be16(n) && Stands(d, p, s)
    ensures Read16(d, p) == n
  {
    assert d[p + 0] == s[0] == s[..2][0] && d[p + 1] == s[1] == s[..2][1];
  }

  lemma FlatParses(d: seq<byte>, cap: nat, rr: Rr, rd: RData, room: Room)
    requires Fits(rr.typ, rd) && NameIn(rd).None? && DataAt(d, cap, rr.rdp, rr.rdlen, rd)
    ensures rr.rdp + rr.rdlen <= |d| && Parsed(rd, ParseData(d, rr, room), room)
  {
    if rd.Txt? {
      ChunksRead(d, rr.rdp, rd.text, room.text);
    } else {
      assert DnsParse.RData(rr, d) == Flat(rd);
    }
  }

  lemma ThreeFields(d: seq<byte>, at: nat, p: nat, w: nat, port: nat)
    requires p < 65536 && w < 65536 && port < 65536 && Stands(d, at, Be16(p) + Be16(w) + Be16(port))
    ensures Read16(d, at) == p && Read16(d, at + 2) == w && Read16(d, at + 4) == port
  {
    StandsParts(d, at, Be16(p) + Be16(w), Be16(port));
    StandsParts(d, at, Be16(p), Be16(w));
    Read16Stands(d, at, p, Be16(p));
    Read16Stands(d, at + 2, w, Be16(w));
    Read16Stands(d, at + 4, port, Be16(port));
  }

  lemma HostDataParses(d: seq<byte>, rr: Rr, name: seq<byte>, room: Room)
    requires rr.typ in {T_NS, T_CNAME, T_PTR} && rr.rdp + rr.rdlen <= |d| && HostParsed(HostText(d, rr.rdp), name)
    ensures Parsed(Host(name), ParseData(d, rr, room), room)
  {
  }

  lemma MxDataParses(d: seq<byte>, rr: Rr, p: nat, name: seq<byte>, room: Room)
    requires rr.typ == T_MX && 3 <= rr.rdlen && rr.rdp + rr.rdlen <= |d| && HostParsed(HostText(d, rr.rdp + 2), name)
    requires Read16(d, rr.rdp) == p
    ensures Parsed(Mx(p, name), ParseData(d, rr, room), room)
  {
  }

  lemma SrvDataParses(d: seq<byte>, rr: Rr, p: nat, w: nat, port: nat, name: seq<byte>, room: Room)
    requires rr.typ == T_SRV && 6 <= rr.rdlen && rr.rdp + rr.rdlen <= |d| && HostParsed(HostText(d, rr.rdp + 6), name)
    requires Read16(d, rr.rdp) == p && Read16(d, rr.rdp + 2) == w && Read16(d, rr.rdp + 4) == port
    ensures Parsed(Srv(p, w, port, name), ParseData(d, rr, room), room)
  {
  }

  lemma NamedParses(d: seq<byte>, cap: nat, rr: Rr, rd: RData, room: Room)
    requires Fits(rr.typ, rd) && CleanData(rd) && NameIn(rd).Some? && DataAt(d, cap, rr.rdp, rr.rdlen, rd)
             && cap <= MAX_POINTERS
    requires rr.rdp + rr.rdlen <= |d|
    ensures Parsed(rd, ParseData(d, rr, room), room)
  {
    var n := NameIn(rd).value;
    HostReads(d, cap, rr.rdp + |n.front|, n.name);
    match rd {
      case Host(name) => HostDataParses(d, rr, name, room);
      case Mx(p, name) =>
        Read16Stands(d, rr.rdp, p, n.front);
        MxDataParses(d, rr, p, name, room);
      case Srv(p, w, port, name) =>
        ThreeFields(d, rr.rdp, p, w, port);
        SrvDataParses(d, rr, p, w, port, name, room);
    }
  }

  // ---------------------------------------------------------------- whole records

  predicate CleanEntry(e: Entry) {
    Writable(e) && Clean(LabelsOf(e.name)) && (e.section != QD ==> CleanData(e.rd)) && e.typ < 65536 && e.cls < 65536
  }

  /** The fixed octets of `e` stand at `s`, and its data behind them, up to `o'`. */
  predicate FieldsAt(d: seq<byte>, cap: nat, s: nat, o': nat, e: Entry) {
    s + 4 <= |d| && d[s..s + 4] == Fixed(e.typ, e.cls)
    && (e.section != QD ==> s + 10 <= o' && s + 8 <= |d| && d[s + 4..s + 8] == Ttl(e.ttl)
                            && DataAt(d, cap, s + 10, o' - (s + 10), e.rd))
  }

  /** The record `e` stands at [o, o'): owner name, fixed octets and data. */
  predicate EntryAt(d: seq<byte>, cap: nat, o: nat, o': nat, e: Entry) {
    RecordAt(d, e.section == QD, o, o') && ReadsBack(d, cap, o, LabelsOf(e.name)) && FieldsAt(d, cap, Skip(d, o), o', e)
  }

  lemma NamedGrow(d: seq<byte>, cap: nat, d': seq<byte>, cap': nat, p: nat, ls: seq<Label>)
    requires ReadsBack(d, cap, p, ls) && SameBody(d', d) && cap <= cap'
    ensures ReadsBack(d', cap', p, ls)
  {
    GrowKeepsName(d, cap, p, d', cap');
  }

  lemma DataGrow(d: seq<byte>, cap: nat, d': seq<byte>, cap': nat, p: nat, len: nat, rd: RData)
    requires DataAt(d, cap, p, len, rd) && SameBody(d', d) && cap <= cap' && 12 <= p
    ensures DataAt(d', cap', p, len, rd)
  {
    if NameIn(rd).Some? {
      var n := NameIn(rd).value;
      NamedGrow(d, cap, d', cap', p + |n.front|, LabelsOf(n.name));
    }
  }

  lemma FieldsGrow(d: seq<byte>, cap: nat, d': seq<byte>, cap': nat, s: nat, o': nat, e: Entry)
    requires FieldsAt(d, cap, s, o', e) && SameBody(d', d) && cap <= cap' && 12 <= s
    ensures FieldsAt(d', cap', s, o', e)
  {
    assert d'[s..s + 4] == d[s..s + 4];
    if e.section != QD {
      assert d'[s + 4..s + 8] == d[s + 4..s + 8];
      DataGrow(d, cap, d', cap', s + 10, o' - (s + 10), e.rd);
    }
  }

  /** Octets behind a record, and the header's, mean nothing to it. */
  lemma {:induction false} EntryGrow(d: seq<byte>, cap: nat, d': seq<byte>, cap': nat, o: nat, o': nat, e: Entry)
    requires EntryAt(d, cap, o, o', e) && SameBody(d', d) && cap <= cap'
    ensures EntryAt(d', cap', o, o', e)
  {
    RecordGrow(d, d', e.section == QD, o, o');
    NamedGrow(d, cap, d', cap', o, LabelsOf(e.name));
    FieldsGrow(d, cap, d', cap', Skip(d, o), o', e);
  }

  lemma QuestionHere(d: seq<byte>, cap: nat, o: nat, e: Entry)
    requires RecordStands(d, true, o, e.typ, e.cls, e.ttl) && e.section == QD && ReadsBack(d, cap, o, LabelsOf(e.name))
    ensures EntryAt(d, cap, o, |d|, e)
  {
  }

  lemma QuestionReads(b: Body, size: nat, e: Entry, cap: nat, n: Body, b': Body)
    requires SoundBody(b) && CleanDict(b.d, b.dict, cap) && cap < MAX_POINTERS && CleanEntry(e) && e.section == QD
    requires PushName(b, size, e.name) == Some(n) && b' == Body(n.d + Fixed(e.typ, e.cls), n.dict)
    requires RecordStands(b'.d, true, |b.d|, e.typ, e.cls, e.ttl)
    ensures EntryAt(b'.d, cap + 1, |b.d|, |b'.d|, e) && CleanDict(b'.d, b'.dict, cap + 1)
  {
    OwnerReads(b, size, e.name, cap, n);
    PushNameKept(b, size, e.name);
    AppendedSameBody(n.d, Fixed(e.typ, e.cls));
    CleanGrows(n, cap + 1, b'.d);
    NamedGrow(n.d, cap + 1, b'.d, cap + 1, |b.d|, LabelsOf(e.name));
    QuestionHere(b'.d, cap + 1, |b.d|, e);
  }

  /** The data of a record, behind an owner name and fixed octets that keep the dictionary clean. */
  lemma AnswerData(n: Body, fields: seq<byte>, size: nat, typ: nat, rd: RData, cap: nat, f: Body, b': Body, p: nat,
                   len: nat)
    requires Kept(n.d, n) && CleanDict(n.d, n.dict, cap) && cap < MAX_POINTERS && Fits(typ, rd) && CleanData(rd)
    requires f == Body(n.d + fields, n.dict) && |f.d| <= size <= 65535 && PushData(f, size, rd) == Some(b')
    requires DataPlace(f.d, b'.d, p, len)
    ensures CleanDict(b'.d, b'.dict, cap + 1) && SameBody(b'.d, n.d) && DataAt(b'.d, cap + 1, p, len, rd)
  {
    AppendedSameBody(n.d, fields);
    CleanGrows(n, cap, f.d);
    AppendKept(n, fields, f.d);
    KeptRefl(n.d, f);
    DataReads(f, size, typ, rd, cap, b', p, len);
    PushDataSound(f, size, typ, rd, b');
  }

  lemma AnswerStandsThere(o: nat, d': seq<byte>, cap: nat, e: Entry, p: nat, len: nat)
    requires RecordStands(d', false, o, e.typ, e.cls, e.ttl) && e.section != QD
    requires p == Skip(d', o) + 10 && p + len == |d'|
    requires ReadsBack(d', cap, o, LabelsOf(e.name)) && DataAt(d', cap + 1, p, len, e.rd)
    ensures EntryAt(d', cap + 1, o, |d'|, e)
  {
    assert SameBody(d', d');
    NamedGrow(d', cap, d', cap + 1, o, LabelsOf(e.name));
  }

  lemma AnswerReads(o: nat, size: nat, e: Entry, cap: nat, n: Body, f: Body, b': Body, p: nat, len: nat)
    requires Kept(n.d, n) && CleanDict(n.d, n.dict, cap) && cap < MAX_POINTERS && CleanEntry(e) && e.section != QD
    requires f == Body(n.d + (Fixed(e.typ, e.cls) + Ttl(e.ttl)), n.dict) && |f.d| <= size <= 65535
    requires PushData(f, size, e.rd) == Some(b') && Skip(b'.d, o) == |n.d| && ReadsBack(n.d, cap, o, LabelsOf(e.name))
    requires DataPlace(f.d, b'.d, p, len) && RecordStands(b'.d, false, o, e.typ, e.cls, e.ttl)
    ensures EntryAt(b'.d, cap + 1, o, |b'.d|, e) && CleanDict(b'.d, b'.dict, cap + 1)
  {
    AnswerData(n, Fixed(e.typ, e.cls) + Ttl(e.ttl), size, e.typ, e.rd, cap, f, b', p, len);
    NamedGrow(n.d, cap, b'.d, cap, o, LabelsOf(e.name));
    AnswerStandsThere(o, b'.d, cap, e, p, len);
  }

  /** The owner name of an answer, in the packet that is done. */
  lemma OwnerDone(b: Body, size: nat, e: Entry, cap: nat, n: Body, fields: seq<byte>, b': Body)
    requires SoundBody(b) && CleanDict(b.d, b.dict, cap) && cap + 1 < MAX_POINTERS && CleanEntry(e)
    requires PushName(b, size, e.name) == Some(n) && n.d + fields <= b'.d
    ensures Kept(n.d, n) && CleanDict(n.d, n.dict, cap + 1) && ReadsBack(n.d, cap + 1, |b.d|, LabelsOf(e.name))
    ensures Skip(b'.d, |b.d|) == |n.d|
  {
    OwnerReads(b, size, e.name, cap, n);
    PushNameKept(b, size, e.name);
    assert n.d <= n.d + fields;
    SkipsOwner(b, size, e.name, b'.d);
  }

  lemma Regroup(a: seq<byte>, b: seq<byte>, c: seq<byte>)
    ensures a + b + c == a + (b + c)
  {
  }

  lemma AnswerEntryReads(b: Body, size: nat, e: Entry, cap: nat, n: Body, f: Body, b': Body)
    requires SoundBody(b) && CleanDict(b.d, b.dict, cap) && cap + 1 < MAX_POINTERS && CleanEntry(e) && e.section != QD
    requires PushName(b, size, e.name) == Some(n) && f == Body(n.d + Fixed(e.typ, e.cls) + Ttl(e.ttl), n.dict)
    requires |f.d| <= size <= 65535 && PushData(f, size, e.rd) == Some(b') && f.d <= b'.d && |f.d| + 2 <= |b'.d|
    requires RecordStands(b'.d, false, |b.d|, e.typ, e.cls, e.ttl)
    ensures EntryAt(b'.d, cap + 2, |b.d|, |b'.d|, e) && CleanDict(b'.d, b'.dict, cap + 2)
  {
    Regroup(n.d, Fixed(e.typ, e.cls), Ttl(e.ttl));
    OwnerDone(b, size, e, cap, n, Fixed(e.typ, e.cls) + Ttl(e.ttl), b');
    AnswerReads(|b.d|, size, e, cap + 1, n, f, b', |f.d| + 2, |b'.d| - |f.d| - 2);
  }

  lemma EntryRelax(d: seq<byte>, dict: seq<nat>, cap: nat, o: nat, e: Entry)
    requires EntryAt(d, cap, o, |d|, e) && CleanDict(d, dict, cap)
    ensures EntryAt(d, cap + 1, o, |d|, e) && CleanDict(d, dict, cap + 1)
  {
    assert SameBody(d, d);
    EntryGrow(d, cap, d, cap + 1, o, |d|, e);
    CleanRelax(d, dict, cap, cap + 1);
  }

  lemma AnswerGoesOn(f: Body, size: nat, rd: RData, b': Body)
    requires PushData(f, size, rd) == Some(b')
    ensures f.d <= b'.d && |f.d| + 2 <= |b'.d|
  {
  }

  /** A clean record that is written stands as itself, and the dictionary stays clean. */
  lemma {:induction false} RecordReads(b: Body, size: nat, e: Entry, cap: nat, b': Body)
    requires SoundBody(b) && CleanDict(b.d, b.dict, cap) && cap + 2 <= MAX_POINTERS && CleanEntry(e) && size <= 65535
    requires PushRecord(b, size, e.section == QD, e.name, e.typ, e.cls, e.ttl, e.rd) == Some(b')
    ensures EntryAt(b'.d, cap + 2, |b.d|, |b'.d|, e) && CleanDict(b'.d, b'.dict, cap + 2)
  {
    PushRecordSound(b, size, e.section == QD, e.name, e.typ, e.cls, e.ttl, e.rd);
    var n := PushName(b, size, e.name).value;
    if e.section == QD {
      QuestionReads(b, size, e, cap, n, b');
      EntryRelax(b'.d, b'.dict, cap + 1, |b.d|, e);
    } else {
      var f := Body(n.d + Fixed(e.typ, e.cls) + Ttl(e.ttl), n.dict);
      AnswerGoesOn(f, size, e.rd, b');
      AnswerEntryReads(b, size, e, cap, n, f, b');
    }
  }
}
