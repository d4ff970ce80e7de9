/**
 What a record that is written but refused leaves behind: `dns_p_push` takes back the packet's end, but not
 the dictionary.
 */
module DnsLimits {
  import opened Wrappers
  import opened Bytes
  import opened DnsWalk
  import opened DnsRead
  import opened DnsCompress
  import opened DnsCompressSound
  import opened DnsDict
  import opened DnsSections
  import opened DnsRecords
  import opened DnsPush
  import opened DnsPacket

  // ---------------------------------------------------------------- which names enter the dictionary

  /** The offset of the name that the tail of `text` is replaced by a pointer to, if labels are left before it. */
  function Replaced(names: seq<Trail>, text: seq<byte>, lim: nat): Option<nat>
    requires AllValid(names)
  {
    var r := Search(names, LabelsOf(text), 0);
    if |Plain(text)| < lim && r.At? && r.k > 0 then Some(r.target) else None
  }

  /** The name will be let in: the entry that its pointer goes to gives way, or there is a free slot. */
  predicate LetsIn(names: seq<Trail>, dict: seq<nat>, text: seq<byte>, lim: nat)
    requires AllValid(names)
  {
    var t := Replaced(names, text, lim);
    (t.Some? && t.value in Used(dict)) || |Used(dict)| < |dict|
  }

  /** The labels before a name's end are stepped over. */
  lemma {:induction false} InlineOverLabels(d: seq<byte>, dn: nat, p: nat, ls: seq<Label>)
    requires AllFit(ls) && Stands(d, p, Wire(ls)) && p + |Wire(ls)| < |d|
    ensures InlineTarget(d, dn, p) == InlineTarget(d, dn, p + |Wire(ls)|)
    decreases ls
  {
    if ls != [] {
      WireStands(d, p, ls);
      InlineOverLabels(d, dn, p + 1 + |ls[0]|, ls[1..]);
    }
  }

  lemma InlineAtPointer(d: seq<byte>, dn: nat, q: nat, t: nat)
    requires dn <= q && |d| == q + 2 && d[q] == PointerTo(t)[0] && d[q + 1] == PointerTo(t)[1] && t <= MAX_TARGET
    ensures InlineTarget(d, dn, q) == if q == dn then None else Some(t)
  {
    assert Target(d, q) == t;
    assert InlineTarget(d, dn, |d|) == None;
  }

  lemma InlineAtZero(d: seq<byte>, dn: nat, q: nat)
    requires q < |d| && d[q] == 0
    ensures InlineTarget(d, dn, q) == None
  {
    assert InlineTarget(d, dn, |d|) == None;
  }

  lemma InlineCut(d: seq<byte>, dn: nat, ls: seq<Label>, t: nat)
    requires AllFit(ls) && Stands(d, dn, Wire(ls) + PointerTo(t)) && |d| == dn + |Wire(ls)| + 2 && t <= MAX_TARGET
    ensures InlineTarget(d, dn, dn) == if ls == [] then None else Some(t)
  {
    StandsParts(d, dn, Wire(ls), PointerTo(t));
    InlineOverLabels(d, dn, dn, ls);
    assert d[dn + |Wire(ls)| + 0] == PointerTo(t)[0] && d[dn + |Wire(ls)| + 1] == PointerTo(t)[1];
    InlineAtPointer(d, dn, dn + |Wire(ls)|, t);
  }

  lemma InlineFull(d: seq<byte>, dn: nat, ls: seq<Label>)
    requires AllFit(ls) && Stands(d, dn, Wire(ls) + [0])
    ensures InlineTarget(d, dn, dn) == None
  {
    StandsParts(d, dn, Wire(ls), [0]);
    InlineOverLabels(d, dn, dn, ls);
    assert d[dn + |Wire(ls)| + 0] == [0][0];
    InlineAtZero(d, dn, dn + |Wire(ls)|);
  }

  /** A name just written points on exactly where its tail was replaced. */
  lemma {:induction false} InlineOfWritten(names: seq<Trail>, text: seq<byte>, lim: nat, d: seq<byte>, dn: nat)
    requires AllValid(names) && IsName(text)
    requires Stands(d, dn, Compressed(names, text, lim)) && |d| == dn + |Compressed(names, text, lim)|
    ensures InlineTarget(d, dn, dn) == Replaced(names, text, lim)
  {
    var ls := LabelsOf(text);
    NameLabels(text);
    var r := Search(names, ls, 0);
    if |Plain(text)| < lim && r.At? {
      SearchSound(names, ls, 0);
      InlineCut(d, dn, ls[..r.k], r.target);
    } else {
      InlineFull(d, dn, ls);
    }
  }

  /** A name with a place is in use afterwards; a name without one leaves the dictionary alone. */
  lemma Recorded(d: seq<byte>, dict: seq<nat>, dn: nat, t: Option<nat>)
    requires ZeroTail(dict) && dn != 0 && t == InlineTarget(d, dn, dn)
    ensures var dict' := DictAdded(d, dict, dn);
            if (t.Some? && t.value in Used(dict)) || |Used(dict)| < |dict|
            then exists i :: 0 <= i < |Used(dict')| && dict'[i] == dn else dict' == dict
    ensures |Used(DictAdded(d, dict, dn))| <= |Used(dict)| + 1
  {
    var dict', n := DictAdded(d, dict, dn), |Used(dict)|;
    if t.Some? && t.value in Used(dict) {
      UsedIs(dict', n);
      assert dict'[IndexOf(Used(dict), t.value)] == dn;
    } else if n < |dict| {
      UsedIs(dict', n + 1);
      assert dict'[n] == dn;
    }
  }

  // ---------------------------------------------------------------- refused records

  /** The packet once owner name and fixed octets of `e` are written. */
  function Headed(n: Body, e: Entry): Body {
    Body(n.d + Fixed(e.typ, e.cls) + Ttl(e.ttl), n.dict)
  }

  /** The room for a name in the data of `e`. */
  function NameRoom(f: Body, size: nat, rd: RData): nat
    requires NameIn(rd).Some?
  {
    if size < |f.d| + 2 + |NameIn(rd).value.front| then 0 else size - |f.d| - 2 - |NameIn(rd).value.front|
  }

  /**
   The push of `e` will let a name of its data into the dictionary: the record is no question, has such a name
   (types NS, CNAME, PTR and MX), and the dictionary has a place for it behind the owner name.
   */
  predicate DataNameEnters(s: State, size: nat, e: Entry) {
    e.section != QD && NameOffset(e.rd).Some?
    && var n := PushName(Body(s.d, s.dict), size, e.name);
       n.Some? && var f := Headed(n.value, e);
                  LetsIn(NamesOf(f.d, f.dict), f.dict, NameIn(e.rd).value.name, NameRoom(f, size, e.rd))
  }

  lemma DataDict(f: Body, size: nat, rd: RData, b: Body)
    requires PushData(f, size, rd) == Some(b)
    ensures NameOffset(rd).None? ==> b.dict == f.dict
    ensures NameOffset(rd).Some? ==> b.dict == DictAdded(b.d, f.dict, |f.d| + 2 + NameOffset(rd).value)
  {
  }

  /** A name written behind `d1`: the dictionary takes it exactly if it lets it in. */
  lemma NameTaken(d: seq<byte>, f: Body, names: seq<Trail>, text: seq<byte>, lim: nat, d1: seq<byte>, b: Body)
    requires SoundDict(d, f.dict) && ZeroTail(f.dict) && |d| < |d1| && AllValid(names) && IsName(text)
    requires b == Body(d1 + Compressed(names, text, lim), DictAdded(d1 + Compressed(names, text, lim), f.dict, |d1|))
    ensures SoundDict(d, b.dict) <==> !LetsIn(names, f.dict, text, lim)
  {
    var w := Compressed(names, text, lim);
    assert Stands(b.d, |d1|, w);
    InlineOfWritten(names, text, lim, b.d, |d1|);
    Recorded(b.d, f.dict, |d1|, Replaced(names, text, lim));
    if LetsIn(names, f.dict, text, lim) {
      var i :| 0 <= i < |Used(b.dict)| && b.dict[i] == |d1|;
      EntryBehind(d, b.dict, i);
    }
  }

  lemma EntryBehind(d: seq<byte>, dict: seq<nat>, i: nat)
    requires i < |Used(dict)| && dict[i] > |d|
    ensures !SoundDict(d, dict)
  {
  }

  lemma DataTaken(d: seq<byte>, f: Body, size: nat, t: nat, rd: RData, b: Body)
    requires SoundDict(d, f.dict) && ZeroTail(f.dict) && |d| < |f.d| <= size <= 65535 && Fits(t, rd)
    requires PushData(f, size, rd) == Some(b)
    ensures SoundDict(d, b.dict)
            <==> !(NameOffset(rd).Some? && LetsIn(NamesOf(f.d, f.dict), f.dict, NameIn(rd).value.name,
                                                  NameRoom(f, size, rd)))
  {
    var names := NamesOf(f.d, f.dict);
    if NameOffset(rd).None? {
      DataDict(f, size, rd, b);
    } else {
      var n, lim := NameIn(rd).value, NameRoom(f, size, rd);
      var d1 := NamedData(f, names, size, t, rd, n, lim, b);
      NameTaken(d, f, names, n.name, lim, d1, b);
    }
  }

  lemma NamedData(f: Body, names: seq<Trail>, size: nat, t: nat, rd: RData, n: Named, lim: nat, b: Body)
    returns (d1: seq<byte>)
    requires names == NamesOf(f.d, f.dict) && |f.d| <= size <= 65535 && Fits(t, rd)
    requires NameOffset(rd).Some? && NameIn(rd) == Some(n) && lim == NameRoom(f, size, rd)
             && PushData(f, size, rd) == Some(b)
    ensures IsName(n.name) && |d1| == |f.d| + 2 + |n.front|
    ensures b == Body(d1 + Compressed(names, n.name, lim), DictAdded(d1 + Compressed(names, n.name, lim), f.dict, |d1|))
  {
    var room: nat;
    d1, room := PushDataIs(f, names, size, t, rd, b);
  }

  /** What is written of `e`, in parts. */
  lemma WrittenParts(s: State, size: nat, e: Entry, n: Body, b: Body)
    requires Written(s, size, e) == Some(b) && PushName(Body(s.d, s.dict), size, e.name) == Some(n)
    ensures if e.section == QD then b == Body(n.d + Fixed(e.typ, e.cls), n.dict)
            else |Headed(n, e).d| <= size && PushData(Headed(n, e), size, e.rd) == Some(b)
  {
  }

  lemma OwnerSound(s: State, size: nat, name: seq<byte>, n: Body)
    requires SoundBody(Body(s.d, s.dict)) && IsName(name) && PushName(Body(s.d, s.dict), size, name) == Some(n)
    ensures SoundDict(s.d, n.dict) && ZeroTail(n.dict) && |s.d| < |n.d| && |n.dict| == |s.dict|
    ensures |Used(n.dict)| <= |Used(s.dict)| + 1
  {
    PushNameSound(Body(s.d, s.dict), size, name);
    RollbackKeepsSound(s.d, s.dict, n.d);
    Recorded(n.d, s.dict, |s.d|, InlineTarget(n.d, |s.d|, |s.d|));
  }

  /** A record is refused when it fits but its section does not exist or a later one has records. */
  lemma {:induction false} RefusedWhen(s: State, size: nat, e: Entry)
    requires SoundBody(Body(s.d, s.dict)) && Writable(e) && size <= 65535
    ensures Push(s, size, e).0 in {OutOfOrder, NoSection}
            <==> Written(s, size, e).Some? && Verdict(s.d, e.section) != Done
    ensures Push(s, size, e).0 in {OutOfOrder, NoSection} ==> Push(s, size, e).0 == Verdict(s.d, e.section)
  {
    if Written(s, size, e).Some? {
      PushRecordSound(Body(s.d, s.dict), size, e.section == QD, e.name, e.typ, e.cls, e.ttl, e.rd);
      SameVerdict(s.d, Written(s, size, e).value.d, e.section);
    }
  }

  /**
   A refused record leaves the dictionary sound exactly when no name of its data is let in; with two free
   slots, exactly when it has no such name.  An entry left behind the end stands for whatever comes to lie there.
   */
  lemma {:induction false} RefusedSound(s: State, size: nat, e: Entry)
    requires SoundBody(Body(s.d, s.dict)) && Writable(e) && size <= 65535
    requires Written(s, size, e).Some? && Verdict(s.d, e.section) != Done
    ensures SoundDict(s.d, Push(s, size, e).1.dict) <==> !DataNameEnters(s, size, e)
    ensures |Used(s.dict)| + 1 < |s.dict| ==>
            (DataNameEnters(s, size, e) <==> e.section != QD && NameOffset(e.rd).Some?)
  {
    RefusedWhen(s, size, e);
    var n := PushName(Body(s.d, s.dict), size, e.name).value;
    var b := Written(s, size, e).value;
    OwnerSound(s, size, e.name, n);
    WrittenParts(s, size, e, n, b);
    if e.section != QD {
      DataTaken(s.d, Headed(n, e), size, e.typ, e.rd, b);
    }
  }
}
