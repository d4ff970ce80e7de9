/**
 What pushing a record does: the names in the packet stay well-ended, the record stands in full
 behind the ones before it, and clean names stay clean.
 */
module DnsPush {
  import opened Wrappers
  import opened Bytes
  import opened DnsWalk
  import opened DnsRead
  import opened DnsCompress
  import opened DnsCompressSound
  import opened DnsDict
  import opened DnsSections
  import opened DnsRecords

  // ---------------------------------------------------------------- the dictionary's names in a longer packet

  lemma {:induction false} LExpandGrow(v: View, v': View, p: nat, hi: nat, n: nat)
    requires Extends(v', v) && hi <= |v.data| && Walk(v, p, hi, n).Name? && Walk(v, p, hi, n).ok
    ensures LExpand(v'.data, p, n).0 == LExpand(v.data, p, n).0
    ensures LExpand(v.data, p, n).0 != [] ==> LExpand(v'.data, p, n) == LExpand(v.data, p, n)
    decreases hi, |v.data| - p
  {
    assert v'.data[p] == v.data[p];
    var len := v.data[p] % 64;
    var kind := v.data[p] / 64;
    if kind == 0 {
      assert v.data[p + 1..p + 1 + len] == v'.data[p + 1..p + 1 + len];
    } else {
      assert Target(v.data, p) == Target(v'.data, p);
      LExpandGrow(v, v', Target(v.data, p), p, n + 1);
    }
  }

  /** One label on, both packets read on at the same offset. */
  lemma TrailStep(d: seq<byte>, d': seq<byte>, p: nat, x: nat)
    requires SameBody(d', d) && ReadsOk(Unlimited(d), p) && Readable(d, p) && LExpand(d, p, 0).0 != []
             && x == LExpand(d, p, 0).1
    ensures ReadsOk(Unlimited(d), x) && Readable(d, x) && Readable(d', x)
  {
    ExpandStep(Packet(d), p, |d|, 0);
    ExpandKeepsEnd(Unlimited(d), p, |d|, 0);
    OkIsReadable(Unlimited(d), x);
    GrowKeepsName(d, |d| + MAX_POINTERS, x, d', |d'| + MAX_POINTERS);
    OkIsReadable(Unlimited(d'), x);
  }

  lemma {:induction false} TrailGrow(d: seq<byte>, d': seq<byte>, p: nat)
    requires SameBody(d', d) && ReadsOk(Unlimited(d), p) && Readable(d, p) && Readable(d', p)
    ensures TrailAt(d', p) == TrailAt(d, p)
    decreases |TrailAt(d, p).labels|
  {
    ExpandStep(Packet(d), p, |d|, 0);
    ExpandStep(Packet(d'), p, |d'|, 0);
    LExpandGrow(Unlimited(d), View(d', 12, |d| + MAX_POINTERS), p, |d|, 0);
    var (l, x) := LExpand(d, p, 0);
    if l != [] {
      TrailStep(d, d', p, x);
      TrailGrow(d, d', x);
    }
  }

  lemma NamesGrow(d: seq<byte>, dict: seq<nat>, d': seq<byte>)
    requires SoundDict(d, dict) && Settled(d, dict) && SameBody(d', d)
    ensures NamesOf(d', dict) == NamesOf(d, dict)
  {
    SoundDictReadable(d, dict);
    GrowKeepsSound(d, dict, d');
    SoundDictReadable(d', dict);
    var a, b := NamesOf(d, dict), NamesOf(d', dict);
    forall i | 0 <= i < |a| ensures a[i] == b[i] {
      TrailGrow(d, d', dict[i]);
    }
  }

  // ---------------------------------------------------------------- skipping over a pushed name

  lemma {:induction false} SkipWire(d: seq<byte>, p: nat, ls: seq<Label>)
    requires AllFit(ls) && Stands(d, p, Wire(ls)) && p + |Wire(ls)| < |d|
    ensures Skip(d, p) == Skip(d, p + |Wire(ls)|)
    decreases ls
  {
    if ls != [] {
      WireStands(d, p, ls);
      SkipWire(d, p + 1 + |ls[0]|, ls[1..]);
    }
  }

  lemma SkipsName(d: seq<byte>, p: nat, names: seq<Trail>, text: seq<byte>, lim: nat)
    requires IsName(text) && AllValid(names) && Stands(d, p, Compressed(names, text, lim))
    ensures |Compressed(names, text, lim)| > 0 && Skip(d, p) == p + |Compressed(names, text, lim)|
  {
    var ls, w := LabelsOf(text), Compressed(names, text, lim);
    NameLabels(text);
    var r := Search(names, ls, 0);
    if |Plain(text)| < lim && r.At? {
      StandsParts(d, p, Wire(ls[..r.k]), PointerTo(r.target));
      SkipWire(d, p, ls[..r.k]);
      assert d[p + |Wire(ls[..r.k])| + 0] == PointerTo(r.target)[0];
    } else {
      StandsParts(d, p, Wire(ls), [0]);
      SkipWire(d, p, ls);
      assert d[p + |Wire(ls)| + 0] == [0][0];
    }
  }

  // ---------------------------------------------------------------- pushing keeps the packet sound

  predicate SoundBody(b: Body) {
    SoundDict(b.d, b.dict) && ZeroTail(b.dict)
  }

  lemma AppendedSameBody(d: seq<byte>, w: seq<byte>)
    requires 12 <= |d|
    ensures SameBody(d + w, d) && Appended(d + w, d, w) && Stands(d + w, |d|, w)
  {
    assert (d + w)[..|d|] == d;
  }

  lemma PushNameSound(b: Body, size: nat, name: seq<byte>)
    requires SoundBody(b) && IsName(name) && PushName(b, size, name).Some?
    ensures var b' := PushName(b, size, name).value;
            SoundBody(b') && Settled(b'.d, b'.dict) && SameBody(b'.d, b.d) && b.d < b'.d && |b'.d| <= size
            && Skip(b'.d, |b.d|) == |b'.d|
  {
    SoundDictReadable(b.d, b.dict);
    var w := Compressed(NamesOf(b.d, b.dict), name, size - |b.d|);
    AppendedSameBody(b.d, w);
    CompressedEnds(b.d, b.dict, name, size - |b.d|, b.d + w);
    PushKeepsSound(b.d, b.dict, b.d + w);
    SkipsName(b.d + w, |b.d|, NamesOf(b.d, b.dict), name, size - |b.d|);
  }

  lemma {:induction false} InlineGrow(d: seq<byte>, d': seq<byte>, dn: nat, p: nat)
    requires |d| == |d'| && dn <= |d| && dn <= p && d[dn..] == d'[dn..]
    ensures InlineTarget(d, dn, p) == InlineTarget(d', dn, p)
    decreases |d| - p
  {
    if p < |d| {
      assert d[p] == d[dn..][p - dn] == d'[dn..][p - dn] == d'[p];
      if |d| - p >= 2 {
        assert d[p + 1] == d[dn..][p + 1 - dn] == d'[dn..][p + 1 - dn] == d'[p + 1];
      }
      InlineGrow(d, d', dn, LSkip(d, p));
    }
  }

  /** Everything that a step of a push keeps: sound names, none pending, nothing before changed. */
  predicate Kept(d: seq<byte>, b': Body) {
    SoundBody(b') && Settled(b'.d, b'.dict) && SameBody(b'.d, d) && d <= b'.d
  }

  lemma AppendKept(b: Body, w: seq<byte>, d': seq<byte>)
    requires Kept(b.d, b) && d' == b.d + w
    ensures Kept(b.d, Body(d', b.dict))
  {
    AppendedSameBody(b.d, w);
    GrowKeepsSound(b.d, b.dict, d');
  }

  lemma KeptTrans(d: seq<byte>, d1: seq<byte>, b': Body)
    requires SameBody(d1, d) && d <= d1 && Kept(d1, b')
    ensures Kept(d, b')
  {
  }

  /** A name written behind `front` in the data; the dictionary's names are those of the packet before. */
  lemma DataNameReads(b: Body, front: seq<byte>, name: seq<byte>, lim: nat, d1: seq<byte>, d': seq<byte>)
    requires Kept(b.d, b) && IsName(name) && d1 == b.d + front && d' == d1 + Compressed(NamesOf(b.d, b.dict), name, lim)
    ensures Kept(b.d, Body(d1, b.dict)) && SameBody(d', d1) && d1 < d' && ReadsOk(Unlimited(d'), |d1|)
  {
    AppendKept(b, front, d1);
    NamesGrow(b.d, b.dict, d1);
    SoundDictReadable(d1, b.dict);
    AppendedSameBody(d1, Compressed(NamesOf(b.d, b.dict), name, lim));
    CompressedEnds(d1, b.dict, name, lim, d');
  }

  lemma RecordedKept(b: Body, d': seq<byte>)
    requires Kept(b.d, b) && SameBody(d', b.d) && b.d < d' && ReadsOk(Unlimited(d'), |b.d|)
    ensures Kept(b.d, Body(d', DictAdded(d', b.dict, |b.d|)))
  {
    PushKeepsSound(b.d, b.dict, d');
  }

  lemma UnrecordedKept(b: Body, d': seq<byte>)
    requires Kept(b.d, b) && SameBody(d', b.d) && b.d < d'
    ensures Kept(b.d, Body(d', b.dict))
  {
    GrowKeepsSound(b.d, b.dict, d');
  }

  lemma KeptRefl(d: seq<byte>, b: Body)
    requires Kept(d, b)
    ensures Kept(b.d, b) && SameBody(b.d, d) && d <= b.d
  {
  }

  /** A name in the data: written behind length octets and fixed octets, and recorded or not. */
  lemma DataNameKept(b: Body, front: seq<byte>, name: seq<byte>, lim: nat, d1: seq<byte>, d': seq<byte>,
                     dict': seq<nat>)
    requires Kept(b.d, b) && IsName(name) && d1 == b.d + front && d' == d1 + Compressed(NamesOf(b.d, b.dict), name, lim)
    requires dict' == b.dict || dict' == DictAdded(d', b.dict, |d1|)
    ensures Kept(b.d, Body(d', dict')) && ReadsOk(Unlimited(d'), |d1|)
  {
    DataNameReads(b, front, name, lim, d1, d');
    var b1 := Body(d1, b.dict);
    KeptRefl(b.d, b1);
    if dict' == b.dict {
      UnrecordedKept(b1, d');
    } else {
      RecordedKept(b1, d');
    }
    KeptTrans(b.d, d1, Body(d', dict'));
  }

  /** Length octets and data stand behind `d`, in the room there was. */
  predicate DataStands(d: seq<byte>, size: nat, d': seq<byte>) {
    |d| + 2 <= |d'| <= size && Read16(d', |d|) == |d'| - |d| - 2
  }

  lemma LengthOctets(d: seq<byte>, p: seq<byte>)
    requires |p| < 65536
    ensures var d' := d + Be16(|p|) + p; d < d' && Read16(d', |d|) == |p|
  {
    var d' := d + Be16(|p|) + p;
    assert d'[..|d|] == d;
    assert d'[|d|] == Be16(|p|)[0] && d'[|d| + 1] == Be16(|p|)[1];
  }

  lemma Regroup(a: seq<byte>, b: seq<byte>, c: seq<byte>, e: seq<byte>)
    ensures a + b + (c + e) == a + (b + c) + e
    ensures |a + (b + c)| == |a| + |b| + |c|
  {
  }

  lemma WithNameIs(d: seq<byte>, names: seq<Trail>, size: nat, front: seq<byte>, name: seq<byte>, p: seq<byte>,
                   d': seq<byte>)
    returns (lim: nat, d1: seq<byte>)
    requires AllValid(names) && |d| <= size <= 65535 && WithName(names, size - |d| - 2, front, name) == Some(p)
    requires d' == d + Be16(|p|) + p
    ensures d1 == d + (Be16(|p|) + front) && d' == d1 + Compressed(names, name, lim) && |d1| == |d| + 2 + |front|
    ensures DataStands(d, size, d') && lim == size - |d| - 2 - |front|
  {
    lim, d1 := size - |d| - 2 - |front|, d + (Be16(|p|) + front);
    LengthOctets(d, p);
    Regroup(d, Be16(|p|), front, Compressed(names, name, lim));
  }

  /** The two shapes of data: a name behind fixed octets, or fixed octets alone. */
  lemma PayloadShape(names: seq<Trail>, room: int, t: nat, rd: RData)
    requires AllValid(names) && Fits(t, rd) && Payload(names, room, rd).Some?
    ensures NameIn(rd).None? ==> NameOffset(rd).None? && Payload(names, room, rd) == Some(Flat(rd))
    ensures NameIn(rd).Some? ==>
              var n := NameIn(rd).value;
              IsName(n.name) && WithName(names, room, n.front, n.name) == Payload(names, room, rd)
              && (NameOffset(rd).Some? ==> NameOffset(rd).value == |n.front|)
  {
  }

  /** `b'` is `b` with data behind it: a name behind length and fixed octets, or length and octets alone. */
  predicate DataWritten(b: Body, names: seq<Trail>, size: nat, rd: RData, d1: seq<byte>, lim: nat, b': Body)
    requires AllValid(names)
  {
    DataStands(b.d, size, b'.d)
    && if NameIn(rd).None? then b' == Body(b.d + (Be16(|Flat(rd)|) + Flat(rd)), b.dict)
       else
         var n := NameIn(rd).value;
         IsName(n.name) && lim == size - |b.d| - 2 - |n.front| && d1 == b.d + (Be16(|b'.d| - |b.d| - 2) + n.front)
         && b'.d == d1 + Compressed(names, n.name, lim)
         && b'.dict == if NameOffset(rd).Some? then DictAdded(b'.d, b.dict, |d1|) else b.dict
  }

  lemma FlatWritten(b: Body, names: seq<Trail>, size: nat, rd: RData, b': Body)
    requires AllValid(names) && NameIn(rd).None? && |b.d| + 2 + |Flat(rd)| <= size <= 65535
    requires b' == Body(b.d + Be16(|Flat(rd)|) + Flat(rd), b.dict)
    ensures DataWritten(b, names, size, rd, [], 0, b')
  {
    LengthOctets(b.d, Flat(rd));
    assert b.d + Be16(|Flat(rd)|) + Flat(rd) == b.d + (Be16(|Flat(rd)|) + Flat(rd));
  }

  lemma NamedWritten(b: Body, names: seq<Trail>, size: nat, rd: RData, p: seq<byte>, b': Body)
    returns (d1: seq<byte>, lim: nat)
    requires AllValid(names) && NameIn(rd).Some? && |b.d| <= size <= 65535 && IsName(NameIn(rd).value.name)
    requires WithName(names, size - |b.d| - 2, NameIn(rd).value.front, NameIn(rd).value.name) == Some(p)
    requires b'.d == b.d + Be16(|p|) + p
    requires b'.dict == if NameOffset(rd).Some? then DictAdded(b'.d, b.dict, |b.d| + 2 + |NameIn(rd).value.front|)
                        else b.dict
    ensures DataWritten(b, names, size, rd, d1, lim, b')
  {
    lim, d1 := WithNameIs(b.d, names, size, NameIn(rd).value.front, NameIn(rd).value.name, p, b'.d);
  }

  lemma PushDataParts(b: Body, names: seq<Trail>, size: nat, rd: RData, b': Body) returns (p: seq<byte>)
    requires AllValid(names) && PushDataWith(b, names, size, rd) == Some(b')
    ensures Payload(names, size - |b.d| - 2, rd) == Some(p) && b'.d == b.d + Be16(|p|) + p
    ensures b'.dict == if NameOffset(rd).Some? then DictAdded(b'.d, b.dict, |b.d| + 2 + NameOffset(rd).value)
                       else b.dict
  {
    p := Payload(names, size - |b.d| - 2, rd).value;
  }

  lemma FlatParts(b: Body, names: seq<Trail>, size: nat, t: nat, rd: RData, p: seq<byte>, b': Body)
    requires AllValid(names) && |b.d| <= size <= 65535 && Fits(t, rd) && NameIn(rd).None?
    requires Payload(names, size - |b.d| - 2, rd) == Some(p) && b' == Body(b.d + Be16(|p|) + p, b.dict)
    ensures DataWritten(b, names, size, rd, [], 0, b')
  {
    PayloadShape(names, size - |b.d| - 2, t, rd);
    FlatWritten(b, names, size, rd, b');
  }

  lemma NamedParts(b: Body, names: seq<Trail>, size: nat, t: nat, rd: RData, p: seq<byte>, b': Body)
    returns (d1: seq<byte>, lim: nat)
    requires AllValid(names) && |b.d| <= size <= 65535 && Fits(t, rd) && NameIn(rd).Some?
    requires Payload(names, size - |b.d| - 2, rd) == Some(p) && b'.d == b.d + Be16(|p|) + p
    requires b'.dict == if NameOffset(rd).Some? then DictAdded(b'.d, b.dict, |b.d| + 2 + NameOffset(rd).value)
                        else b.dict
    ensures DataWritten(b, names, size, rd, d1, lim, b')
  {
    PayloadShape(names, size - |b.d| - 2, t, rd);
    d1, lim := NamedWritten(b, names, size, rd, p, b');
  }

  lemma PushDataIs(b: Body, names: seq<Trail>, size: nat, t: nat, rd: RData, b': Body) returns (d1: seq<byte>, lim: nat)
    requires AllValid(names) && |b.d| <= size <= 65535 && Fits(t, rd) && PushDataWith(b, names, size, rd) == Some(b')
    ensures DataWritten(b, names, size, rd, d1, lim, b')
  {
    var p := PushDataParts(b, names, size, rd, b');
    if NameIn(rd).Some? {
      d1, lim := NamedParts(b, names, size, t, rd, p, b');
    } else {
      d1, lim := [], 0;
      FlatParts(b, names, size, t, rd, p, b');
    }
  }

  lemma WrittenKept(b: Body, size: nat, rd: RData, d1: seq<byte>, lim: nat, b': Body)
    requires Kept(b.d, b) && DataWritten(b, NamesOf(b.d, b.dict), size, rd, d1, lim, b')
    ensures Kept(b.d, b') && DataStands(b.d, size, b'.d)
  {
    if NameIn(rd).Some? {
      var n := NameIn(rd).value;
      DataNameKept(b, Be16(|b'.d| - |b.d| - 2) + n.front, n.name, lim, d1, b'.d, b'.dict);
    } else {
      AppendKept(b, Be16(|Flat(rd)|) + Flat(rd), b'.d);
    }
  }

  lemma PushDataSound(b: Body, size: nat, t: nat, rd: RData, b': Body)
    requires Kept(b.d, b) && Fits(t, rd) && |b.d| <= size <= 65535 && PushData(b, size, rd) == Some(b')
    ensures Kept(b.d, b') && DataStands(b.d, size, b'.d)
  {
    var d1, lim := PushDataIs(b, NamesOf(b.d, b.dict), size, t, rd, b');
    WrittenKept(b, size, rd, d1, lim, b');
  }

  lemma SkipsWritten(b: Body, names: seq<Trail>, size: nat, name: seq<byte>, n: Body, d': seq<byte>)
    requires AllValid(names) && IsName(name) && PushNameWith(b, names, size, name) == Some(n) && n.d <= d'
    ensures Skip(d', |b.d|) == |n.d|
  {
    var w := Compressed(names, name, size - |b.d|);
    forall i | 0 <= i < |w| ensures d'[|b.d| + i] == w[i] {
      assert d'[|b.d| + i] == (b.d + w)[|b.d| + i];
    }
    SkipsName(d', |b.d|, names, name, size - |b.d|);
  }

  /** The owner name of a record is skipped whole, whatever follows it. */
  lemma SkipsOwner(b: Body, size: nat, name: seq<byte>, d': seq<byte>)
    requires IsName(name) && PushName(b, size, name).Some? && PushName(b, size, name).value.d <= d'
    ensures Skip(d', |b.d|) == |PushName(b, size, name).value.d|
  {
    SkipsWritten(b, NamesOf(b.d, b.dict), size, name, PushName(b, size, name).value, d');
  }

  /** What stands at offset `o` of `d'`: a record with this owner end and these fixed fields. */
  predicate RecordStands(d': seq<byte>, question: bool, o: nat, typ: nat, cls: nat, ttl: nat) {
    RecordAt(d', question, o, |d'|)
    && var s := Skip(d', o);
       s + 4 <= |d'| && d'[s..s + 4] == Fixed(typ, cls)
       && (!question ==> s + 10 <= |d'| && d'[s + 4..s + 8] == Ttl(ttl))
  }

  lemma HeadStands(n: seq<byte>, f: seq<byte>, t: seq<byte>, d': seq<byte>)
    requires |f| == 4 && |t| == 4 && n + f + t <= d'
    ensures d'[|n|..|n| + 4] == f && d'[|n| + 4..|n| + 8] == t
  {
    assert d'[..|n| + 8] == n + f + t;
    assert d'[|n|..|n| + 4] == d'[..|n| + 8][|n|..|n| + 4];
    assert d'[|n| + 4..|n| + 8] == d'[..|n| + 8][|n| + 4..];
  }

  lemma PushNameKept(b: Body, size: nat, name: seq<byte>)
    requires SoundBody(b) && IsName(name) && PushName(b, size, name).Some?
    ensures var n := PushName(b, size, name).value; Kept(b.d, n) && Kept(n.d, n) && |b.d| < |n.d| <= size
  {
    PushNameSound(b, size, name);
  }

  /** The owner name and the fixed fields stand; what was written is `n.d`, then the fields. */
  lemma HeadKept(b: Body, size: nat, name: seq<byte>, fields: seq<byte>, d: seq<byte>)
    requires SoundBody(b) && IsName(name) && PushName(b, size, name).Some?
             && d == PushName(b, size, name).value.d + fields
    ensures Kept(b.d, Body(d, PushName(b, size, name).value.dict))
            && Kept(d, Body(d, PushName(b, size, name).value.dict))
  {
    PushNameKept(b, size, name);
    var n := PushName(b, size, name).value;
    AppendKept(n, fields, d);
    KeptTrans(b.d, n.d, Body(d, n.dict));
    AppendedSameBody(d, []);
  }

  lemma QuestionStands(d: seq<byte>, n: seq<byte>, d': seq<byte>, typ: nat, cls: nat)
    requires HEADER <= |d| < |n| && d' == n + Fixed(typ, cls) && Skip(d', |d|) == |n|
    ensures RecordStands(d', true, |d|, typ, cls, 0)
  {
    assert d'[|n|..|n| + 4] == Fixed(typ, cls);
  }

  lemma PushQuestionSound(b: Body, size: nat, name: seq<byte>, typ: nat, cls: nat, n: Body, d: seq<byte>)
    requires SoundBody(b) && IsName(name) && PushName(b, size, name) == Some(n) && d == n.d + Fixed(typ, cls)
    ensures Kept(b.d, Body(d, n.dict)) && |b.d| < |d| && RecordStands(d, true, |b.d|, typ, cls, 0)
  {
    PushNameKept(b, size, name);
    HeadKept(b, size, name, Fixed(typ, cls), d);
    SkipsOwner(b, size, name, d);
    QuestionStands(b.d, n.d, d, typ, cls);
  }

  lemma AnswerStands(d: seq<byte>, n: seq<byte>, e: seq<byte>, d': seq<byte>, size: nat, typ: nat, cls: nat, ttl: nat)
    requires HEADER <= |d| < |n| && e == n + Fixed(typ, cls) + Ttl(ttl) && e <= d' && DataStands(e, size, d')
    requires Skip(d', |d|) == |n|
    ensures RecordStands(d', false, |d|, typ, cls, ttl)
  {
    HeadStands(n, Fixed(typ, cls), Ttl(ttl), d');
  }

  lemma AnswerKept(b: Body, n: Body, fields: seq<byte>, size: nat, typ: nat, rd: RData, e: Body, b': Body)
    requires Kept(b.d, n) && Kept(n.d, n) && Fits(typ, rd) && size <= 65535
    requires e == Body(n.d + fields, n.dict) && |e.d| <= size && PushData(e, size, rd) == Some(b')
    ensures Kept(b.d, b') && DataStands(e.d, size, b'.d) && e.d <= b'.d
  {
    AppendKept(n, fields, e.d);
    KeptRefl(n.d, e);
    PushDataSound(e, size, typ, rd, b');
    KeptTrans(n.d, e.d, b');
    KeptTrans(b.d, n.d, b');
  }

  /** Behind `d` stands a name that ends at `n`, whatever follows. */
  ghost predicate SkippedWhole(d: seq<byte>, n: seq<byte>) {
    forall d': seq<byte> {:trigger Skip(d', |d|)} :: n <= d' ==> Skip(d', |d|) == |n|
  }

  lemma OwnerKept(b: Body, size: nat, name: seq<byte>, n: Body)
    requires SoundBody(b) && IsName(name) && PushName(b, size, name) == Some(n)
    ensures Kept(b.d, n) && Kept(n.d, n) && |b.d| < |n.d| <= size && SkippedWhole(b.d, n.d)
  {
    PushNameKept(b, size, name);
    forall d': seq<byte> | n.d <= d' ensures Skip(d', |b.d|) == |n.d| {
      SkipsOwner(b, size, name, d');
    }
  }

  lemma PushAnswerSound(b: Body, size: nat, typ: nat, cls: nat, ttl: nat, rd: RData, n: Body, e: Body, b': Body)
    requires Kept(b.d, n) && Kept(n.d, n) && |b.d| < |n.d| && SkippedWhole(b.d, n.d) && Fits(typ, rd) && size <= 65535
    requires e == Body(n.d + Fixed(typ, cls) + Ttl(ttl), n.dict) && |e.d| <= size && PushData(e, size, rd) == Some(b')
    ensures Kept(b.d, b') && |b.d| < |b'.d| <= size && RecordStands(b'.d, false, |b.d|, typ, cls, ttl)
  {
    assert e.d == n.d + (Fixed(typ, cls) + Ttl(ttl));
    AnswerKept(b, n, Fixed(typ, cls) + Ttl(ttl), size, typ, rd, e, b');
    AnswerStands(b.d, n.d, e.d, b'.d, size, typ, cls, ttl);
  }

  /** A pushed record stands in full, and every name in the packet stays well-ended. */
  lemma {:induction false} PushRecordSound(b: Body, size: nat, question: bool, name: seq<byte>, typ: nat, cls: nat,
                                           ttl: nat, rd: RData)
    requires SoundBody(b) && IsName(name) && (question || Fits(typ, rd)) && size <= 65535
    requires PushRecord(b, size, question, name, typ, cls, ttl, rd).Some?
    ensures var b' := PushRecord(b, size, question, name, typ, cls, ttl, rd).value;
            Kept(b.d, b') && |b.d| < |b'.d| <= size && RecordStands(b'.d, question, |b.d|, typ, cls, ttl)
  {
    var n := PushName(b, size, name).value;
    if question {
      PushQuestionSound(b, size, name, typ, cls, n, n.d + Fixed(typ, cls));
    } else {
      OwnerKept(b, size, name, n);
      PushAnswerSound(b, size, typ, cls, ttl, rd, n, Body(n.d + Fixed(typ, cls) + Ttl(ttl), n.dict),
                      PushRecord(b, size, question, name, typ, cls, ttl, rd).value);
    }
  }
}
