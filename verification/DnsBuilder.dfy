/**
 The packet buffer itself: octets, end, dictionary and memo, changed in place by `dns_p_push` and
 the pushers of the record types.  Every method leaves what the functions of `DnsPacket` say.
 */
module DnsBuilder {
  import opened Wrappers
  import opened Bytes
  import opened DnsWalk
  import opened DnsRead
  import opened DnsCompress
  import opened DnsCompressSound
  import opened DnsCompressLoops
  import opened DnsDict
  import opened DnsSections
  import opened DnsRecords
  import opened DnsPush
  import opened DnsPacket

  lemma NameIsShort(text: seq<byte>)
    requires IsName(text)
    ensures text != [] && ShortSegments(text)
  {
    NameLabels(text);
    if text == [DOT] {
      assert SplitFrom(text, 1, 1) == [];
      assert Segments(text) == [[]];
    }
  }

  lemma PrefixWritten(cur: seq<byte>, d: seq<byte>, base: nat, w: seq<byte>)
    requires WrittenAt(cur, d, base, w) && base + |w| <= |d|
    ensures cur[..base + |w|] == d[..base] + w
  {
  }

  /** The packet before a name in the data goes by the same names as the record without its data. */
  lemma NamesBefore(b: Body, g: seq<byte>)
    requires SoundBody(b) && Settled(b.d, b.dict) && b.d <= g
    ensures SoundBody(Body(g, b.dict)) && NamesOf(g, b.dict) == NamesOf(b.d, b.dict)
  {
    GrowKeepsSound(b.d, b.dict, g);
    NamesGrow(b.d, b.dict, g);
  }

  /** Filling in the length octets does not change what was recorded for the name behind them. */
  lemma LengthFilled(d: seq<byte>, front: seq<byte>, w: seq<byte>, dict: seq<nat>, cur: seq<byte>, g: seq<byte>)
    requires |d| + 2 + |front| == |g| && g[|d| + 2..] == front && cur == d + Be16(|front + w|) + (front + w)
    ensures DictAdded(g + w, dict, |g|) == DictAdded(cur, dict, |g|)
  {
    assert cur == d + Be16(|front + w|) + front + w;
    assert |d + Be16(|front + w|) + front| == |g|;
    InlineGrow(g + w, cur, |g|, |g|);
  }

  lemma ChunkParts(u: seq<byte>, n: nat)
    requires u != [] && n == (if |u| < 255 then |u| else 255)
    ensures Chunks(u) == [n] + u[..n] + Chunks(u[n..])
  {
  }

  lemma Regrouped(s: seq<byte>, a: seq<byte>, b: seq<byte>, c: seq<byte>)
    ensures s + a + b + c == s + (a + b + c)
  {
  }

  /** One more character string of a text. */
  lemma ChunkStep(text: seq<byte>, src: nat, n: nat, s: seq<byte>)
    requires src < |text| && n == (if |text| - src < 255 then |text| - src else 255)
    ensures s + [n] + text[src..src + n] + Chunks(text[src + n..]) == s + Chunks(text[src..])
    ensures |s + Chunks(text[src..])| >= |s| + 1 + n
  {
    ChunkParts(text[src..], n);
    assert text[src..][..n] == text[src..src + n] && text[src..][n..] == text[src + n..];
    Regrouped(s, [n], text[src..src + n], Chunks(text[src + n..]));
  }

  /** What comes of the name `w` behind `front`: `after` is `b` with the data, or `b` for lack of room. */
  predicate NamedPushed(b: Body, size: nat, front: seq<byte>, w: seq<byte>, recorded: bool, ok: bool, after: Body) {
    ok == (2 + |front + w| <= size - |b.d|)
    && if !ok then after == b
       else after.d == b.d + Be16(|front + w|) + (front + w)
            && after.dict == if recorded then DictAdded(after.d, b.dict, |b.d| + 2 + |front|) else b.dict
  }

  lemma DataWithIs(b: Body, size: nat, rd: RData, names: seq<Trail>, w: seq<byte>, ok: bool, after: Body)
    requires AllValid(names) && Payload(names, size - |b.d| - 2, rd) == if ok then Some(w) else None
    requires ok ==> after.d == b.d + Be16(|w|) + w
    requires ok ==> after.dict == if NameOffset(rd).Some?
                    then DictAdded(after.d, b.dict, |b.d| + 2 + NameOffset(rd).value) else b.dict
    ensures PushDataWith(b, names, size, rd) == if ok then Some(after) else None
  {
  }

  /** What comes of data whose octets are `w`. */
  lemma DataIs(b: Body, size: nat, rd: RData, names: seq<Trail>, w: seq<byte>, ok: bool, after: Body)
    requires names == NamesOf(b.d, b.dict) && Payload(names, size - |b.d| - 2, rd) == if ok then Some(w) else None
    requires ok ==> after.d == b.d + Be16(|w|) + w
    requires ok ==> after.dict == if NameOffset(rd).Some?
                    then DictAdded(after.d, b.dict, |b.d| + 2 + NameOffset(rd).value) else b.dict
    ensures PushData(b, size, rd) == if ok then Some(after) else None
  {
    DataWithIs(b, size, rd, names, w, ok, after);
  }

  lemma HostPayloadIs(names: seq<Trail>, room: nat, name: seq<byte>, w: seq<byte>)
    requires AllValid(names) && room >= 1 && w == Compressed(names, name, room)
    ensures Payload(names, room, Host(name)) == if |w| <= room then Some(w) else None
  {
    assert [] + w == w;
  }

  lemma NoFront(b: Body, size: nat, w: seq<byte>, ok: bool, after: Body)
    requires NamedPushed(b, size, [], w, true, ok, after)
    ensures (ok <==> 2 + |w| <= size - |b.d|) && (ok ==> after.d == b.d + Be16(|w|) + w)
    ensures ok ==> after.dict == DictAdded(after.d, b.dict, |b.d| + 2)
  {
    assert [] + w == w;
  }

  lemma HostIs(b: Body, size: nat, name: seq<byte>, w: seq<byte>, ok: bool, after: Body)
    requires size - |b.d| >= 3 && w == Compressed(NamesOf(b.d, b.dict), name, size - |b.d| - 2)
    requires NamedPushed(b, size, [], w, true, ok, after)
    ensures PushData(b, size, Host(name)) == if ok then Some(after) else None
  {
    var names := NamesOf(b.d, b.dict);
    HostPayloadIs(names, size - |b.d| - 2, name, w);
    NoFront(b, size, w, ok, after);
    DataIs(b, size, Host(name), names, w, ok, after);
  }

  lemma MxIs(b: Body, size: nat, preference: nat, name: seq<byte>, w: seq<byte>, ok: bool, after: Body)
    requires size - |b.d| >= 5 && w == Compressed(NamesOf(b.d, b.dict), name, size - |b.d| - 4)
    requires NamedPushed(b, size, Be16(preference), w, true, ok, after)
    ensures PushData(b, size, Mx(preference, name)) == if ok then Some(after) else None
  {
  }

  lemma SrvIs(b: Body, size: nat, p: nat, wt: nat, port: nat, name: seq<byte>, w: seq<byte>, ok: bool, after: Body)
    requires size - |b.d| >= 8 && w == Compressed(NamesOf(b.d, b.dict), name, size - |b.d| - 8)
    requires NamedPushed(b, size, Be16(p) + Be16(wt) + Be16(port), w, false, ok, after)
    ensures PushData(b, size, Srv(p, wt, port, name)) == if ok then Some(after) else None
  {
  }

  lemma DataGoesOn(b: Body, size: nat, rd: RData)
    requires PushData(b, size, rd).Some?
    ensures PushData(b, size, rd).value.d[..|b.d|] == b.d
  {
  }

  class Packet {
    const data: array<byte>
    const dict: array<nat>
    var end: nat
    var memos: Memos

    ghost predicate Valid()
      reads this
    {
      HEADER <= end <= data.Length <= 65535 && dict.Length == DICT_SIZE
    }

    ghost function Names(): Body
      reads this, data, dict
      requires Valid()
    {
      Body(data[..end], dict[..])
    }

    ghost function View(): State
      reads this, data, dict
      requires Valid()
    {
      State(data[..end], dict[..], memos)
    }

    /** `dns_p_init`: only the header is cleared. */
    constructor (size: nat)
      requires HEADER <= size <= 65535
      ensures Valid() && fresh(data) && fresh(dict) && data.Length == size && dict.Length == 16 && View() == EMPTY
    {
      data := new byte[size];
      dict := new nat[DICT_SIZE](_ => 0);
      end := HEADER;
      memos := UNSTUDIED;
      new;
      forall i | 0 <= i < HEADER {
        data[i] := 0;
      }
    }

    /** `P->data[P->end++] = ...`, for octets there is room for. */
    method PutOctets(b: seq<byte>)
      requires Valid() && |b| <= data.Length - end
      modifies this`end, data
      ensures Valid() && data[..end] == old(data[..end]) + b
    {
      forall i | 0 <= i < |b| {
        data[end + i] := b[i];
      }
      end := end + |b|;
    }

    /** `dns_d_comp` at the end of the packet. */
    method PutName(name: seq<byte>) returns (ok: bool)
      requires Valid() && IsName(name) && SoundBody(Names())
      modifies this`end, data
      ensures Valid() && end >= old(end) && data[..old(end)] == old(data[..end])
      ensures var w := Compressed(NamesOf(old(data[..end]), dict[..]), name, data.Length - old(end));
              ok == (|w| <= data.Length - old(end)) && data[..end] == old(data[..end]) + (if ok then w else [])
    {
      NameIsShort(name);
      SoundDictReadable(data[..end], dict[..]);
      ghost var d, whole := data[..end], data[..];
      var dp := end;
      var n := CompressName(data, dp, dict, name);
      assert whole[..dp] == d;
      ok := n <= data.Length - dp;
      if ok {
        end := end + n;
        PrefixWritten(data[..], whole, dp, Compressed(NamesOf(d, dict[..]), name, data.Length - dp));
      }
    }

    /** `dns_d_push`. */
    method PushOwner(name: seq<byte>) returns (ok: bool)
      requires Valid() && IsName(name) && SoundBody(Names())
      modifies this`end, data, dict
      ensures Valid() && end >= old(end) && data[..old(end)] == old(data[..end])
      ensures var r := PushName(old(Names()), data.Length, name);
              if ok then r == Some(Names()) else r.None? && Names() == old(Names())
    {
      var dp := end;
      ok := PutName(name);
      if ok {
        DictAdd(data[..end], dict, dp);
      }
    }

    /** The two octets of a length that was left open. */
    method FillLength(at: nat, ghost d: seq<byte>, ghost payload: seq<byte>)
      requires Valid() && at + 2 + |payload| == end && |d| == at && data[..at] == d && data[at + 2..end] == payload
      modifies data
      ensures data[..end] == d + Be16(|payload|) + payload
    {
      var len := end - at - 2;
      data[at] := (len / 256) % 256;
      data[at + 1] := len % 256;
    }

    /** The name in the data, recorded by `dns_d_push` or, for an SRV record, only written. */
    method NameInData(name: seq<byte>, recorded: bool, ghost g: seq<byte>, ghost was: seq<nat>, ghost names: seq<Trail>)
      returns (ok: bool)
      requires Valid() && IsName(name) && SoundBody(Names())
      requires g == data[..end] && was == dict[..] && names == NamesOf(g, was)
      modifies this`end, data, dict
      ensures Valid() && end >= old(end)
      ensures var w := Compressed(names, name, data.Length - |g|);
              ok == (|w| <= data.Length - |g|) && data[..end] == g + (if ok then w else [])
              && dict[..] == if ok && recorded then DictAdded(data[..end], was, |g|) else was
    {
      if recorded {
        ok := PushOwner(name);
      } else {
        ok := PutName(name);
      }
    }

    /** Two octets left open, and fixed octets. */
    method OpenData(front: seq<byte>)
      requires Valid() && SoundBody(Names()) && Settled(Names().d, Names().dict) && 2 + |front| <= data.Length - end
      modifies this`end, data
      ensures Valid() && end == old(end) + 2 + |front| && data[..old(end)] == old(data[..end])
      ensures data[old(end) + 2..end] == front && data[..end][old(end) + 2..] == front
              && old(data[..end]) <= data[..end]
      ensures SoundBody(Names()) && NamesOf(data[..end], dict[..]) == NamesOf(old(data[..end]), dict[..])
    {
      ghost var b := Names();
      end := end + 2;
      PutOctets(front);
      assert b.d <= data[..end];
      NamesBefore(b, data[..end]);
    }

    /** `P->end = end`, after a failure. */
    method Reopen(at: nat, ghost d: seq<byte>, ghost g: seq<byte>)
      requires Valid() && data[..end] == g && |d| == at && d <= g && HEADER <= at
      modifies this`end
      ensures Valid() && end == at && data[..end] == d
    {
      assert data[..at] == data[..|g|][..at];
      end := at;
    }

    /** The length, once the name stands behind the fixed octets. */
    method CloseData(at: nat, recorded: bool, ghost d: seq<byte>, ghost front: seq<byte>, ghost w: seq<byte>,
        ghost g: seq<byte>, ghost was: seq<nat>)
      requires Valid() && at + 2 + |front + w| == end && |d| == at && |g| == at + 2 + |front|
      requires d <= g && g[at + 2..] == front && data[..end] == g + w
      requires dict[..] == if recorded then DictAdded(g + w, was, |g|) else was
      modifies data
      ensures Valid() && data[..end] == d + Be16(|front + w|) + (front + w)
      ensures dict[..] == if recorded then DictAdded(data[..end], was, |d| + 2 + |front|) else was
    {
      assert data[..at] == d && data[at + 2..end] == front + w;
      FillLength(at, d, front + w);
      LengthFilled(d, front, w, was, data[..end], g);
    }

    /**
     The shape that `dns_ns_push`, `dns_mx_push` and `dns_srv_push` share: length octets left open,
     fixed octets, the name, and then the length.  An SRV record's name is not recorded.
     */
    method WriteNamed(front: seq<byte>, name: seq<byte>, recorded: bool,
        ghost d: seq<byte>, ghost was: seq<nat>, ghost names: seq<Trail>, ghost w: seq<byte>)
      returns (ok: bool)
      requires Valid() && IsName(name) && SoundBody(Names()) && Settled(Names().d, Names().dict)
      requires 2 + |front| <= data.Length - end
      requires d == data[..end] && was == dict[..] && names == NamesOf(d, was)
      requires w == Compressed(names, name, data.Length - end - 2 - |front|)
      modifies this`end, data, dict
      ensures Valid() && end >= |d|
      ensures ok == (2 + |front + w| <= data.Length - |d|)
      ensures ok ==> data[..end] == d + Be16(|front + w|) + (front + w)
      ensures ok ==> dict[..] == if recorded then DictAdded(data[..end], was, |d| + 2 + |front|) else was
      ensures !ok ==> data[..end] == d && dict[..] == was
    {
      var at := end;
      OpenData(front);
      ghost var g := data[..end];
      assert |front + w| == |front| + |w|;
      ok := NameInData(name, recorded, g, was, names);
      if !ok {
        Reopen(at, d, g);
        return;
      }
      CloseData(at, recorded, d, front, w, g, was);
    }

    method PushNamed(front: seq<byte>, name: seq<byte>, recorded: bool, ghost b: Body, ghost names: seq<Trail>,
                     ghost w: seq<byte>)
      returns (ok: bool)
      requires Valid() && IsName(name) && SoundBody(Names()) && Settled(Names().d, Names().dict)
      requires 2 + |front| <= data.Length - end
      requires b == Names() && names == NamesOf(b.d, b.dict)
      requires w == Compressed(names, name, data.Length - end - 2 - |front|)
      modifies this`end, data, dict
      ensures Valid() && end >= |b.d| && NamedPushed(b, data.Length, front, w, recorded, ok, Names())
    {
      ok := WriteNamed(front, name, recorded, b.d, b.dict, names, w);
    }

    /** `dns_a_push`, `dns_aaaa_push` and the fallback of `dns_any_push`: octets behind their length. */
    method PushFlat(octets: seq<byte>, ghost d: seq<byte>) returns (ok: bool)
      requires Valid() && d == data[..end]
      modifies this`end, data
      ensures Valid() && ok == (2 + |octets| <= data.Length - |d|)
      ensures data[..end] == if ok then d + Be16(|octets|) + octets else d
    {
      if data.Length - end < 2 + |octets| {
        return false;
      }
      PutOctets(Be16(|octets|));
      PutOctets(octets);
      ok := true;
    }

    /** `dst.b[dst.p++] = ...`: octets behind the cursor, with the packet's end left where it is. */
    method WriteAt(p: nat, b: seq<byte>, ghost s: seq<byte>)
      requires Valid() && end <= p && p + |b| <= data.Length && s == data[..p]
      modifies data
      ensures data[..p + |b|] == s + b && data[..end] == old(data[..end])
    {
      forall i | 0 <= i < |b| {
        data[p + i] := b[i];
      }
    }

    /** One character string behind the cursor. */
    method WriteChunk(p: nat, n: byte, b: seq<byte>, ghost s: seq<byte>) returns (ok: bool)
      requires Valid() && end <= p <= data.Length && |b| == n && s == data[..p]
      modifies data
      ensures ok == (p + 1 + |b| <= data.Length) && data[..end] == old(data[..end])
      ensures ok ==> data[..p + 1 + |b|] == s + [n] + b
    {
      if p >= data.Length {
        return false;
      }
      WriteAt(p, [n], s);
      if data.Length - (p + 1) < n {
        return false;
      }
      WriteAt(p + 1, b, s + [n]);
      ok := true;
    }

    /** The loop of `dns_txt_push`. */
    method WriteChunks(text: seq<byte>, at: nat, ghost t: seq<byte>) returns (ok: bool, p: nat)
      requires Valid() && end <= at <= data.Length && t == data[..at]
      modifies data
      ensures data[..end] == old(data[..end]) && ok == (at + |Chunks(text)| <= data.Length)
      ensures ok ==> p == at + |Chunks(text)| && data[..p] == t + Chunks(text)
    {
      ok, p := true, at;
      ghost var s := t;
      var src: nat := 0;
      assert text[0..] == text;
      while src < |text|
        invariant src <= |text| && end <= p <= data.Length && s == data[..p] && data[..end] == old(data[..end])
        invariant s + Chunks(text[src..]) == t + Chunks(text)
      {
        var n: byte := if |text| - src < 255 then |text| - src else 255;
        ChunkStep(text, src, n, s);
        ok := WriteChunk(p, n, text[src..src + n], s);
        if !ok {
          return;
        }
        s := s + [n] + text[src..src + n];
        p := p + 1 + n;
        src := src + n;
      }
      assert text[src..] == [];
    }

    /** `dns_txt_push`. */
    method PushText(text: seq<byte>, ghost d: seq<byte>) returns (ok: bool)
      requires Valid() && d == data[..end]
      modifies this`end, data
      ensures Valid() && ok == (2 + |Chunks(text)| <= data.Length - |d|)
      ensures data[..end] == if ok then d + Be16(|Chunks(text)|) + Chunks(text) else d
    {
      ChunksSize(text);
      if data.Length - end < 2 {
        return false;
      }
      var len := |text| + (|text| + 254) / 255;
      WriteAt(end, Be16(len), d);
      var p;
      ok, p := WriteChunks(text, end + 2, d + Be16(len));
      if ok {
        end := p;
      }
    }

    /** `dns_ns_push`, which CNAME and PTR records share. */
    method PushHost(name: seq<byte>, ghost b: Body) returns (ok: bool)
      requires Valid() && IsName(name) && SoundBody(Names()) && Settled(Names().d, Names().dict) && b == Names()
      modifies this`end, data, dict
      ensures Valid() && end >= |b.d|
      ensures PushData(b, data.Length, Host(name)) == if ok then Some(Names()) else None
      ensures !ok ==> Names() == b
    {
      if data.Length - end < 3 {
        return false;
      }
      ghost var names := NamesOf(b.d, b.dict);
      ghost var w := Compressed(names, name, data.Length - end - 2);
      ok := PushNamed([], name, true, b, names, w);
      HostIs(b, data.Length, name, w, ok, Names());
    }

    /** `dns_mx_push`. */
    method PushMx(preference: nat, name: seq<byte>, ghost b: Body) returns (ok: bool)
      requires Valid() && IsName(name) && SoundBody(Names()) && Settled(Names().d, Names().dict) && b == Names()
      modifies this`end, data, dict
      ensures Valid() && end >= |b.d|
      ensures PushData(b, data.Length, Mx(preference, name)) == if ok then Some(Names()) else None
      ensures !ok ==> Names() == b
    {
      if data.Length - end < 5 {
        return false;
      }
      ghost var names := NamesOf(b.d, b.dict);
      ghost var w := Compressed(names, name, data.Length - end - 4);
      ok := PushNamed(Be16(preference), name, true, b, names, w);
      MxIs(b, data.Length, preference, name, w, ok, Names());
    }

    /** `dns_srv_push`. */
    method PushSrv(priority: nat, weight: nat, port: nat, name: seq<byte>, ghost b: Body) returns (ok: bool)
      requires Valid() && IsName(name) && SoundBody(Names()) && Settled(Names().d, Names().dict) && b == Names()
      modifies this`end, data, dict
      ensures Valid() && end >= |b.d|
      ensures PushData(b, data.Length, Srv(priority, weight, port, name)) == if ok then Some(Names()) else None
      ensures !ok ==> Names() == b
    {
      if data.Length - end < 2 || data.Length - (end + 2) < 6 {
        return false;
      }
      ghost var names := NamesOf(b.d, b.dict);
      ghost var w := Compressed(names, name, data.Length - end - 8);
      ok := PushNamed(Be16(priority) + Be16(weight) + Be16(port), name, false, b, names, w);
      SrvIs(b, data.Length, priority, weight, port, name, w, ok, Names());
    }

    /** `dns_any_push` with the pushers of the record types. */
    method PushRdata(typ: nat, rd: RData, ghost b: Body) returns (ok: bool)
      requires Valid() && Fits(typ, rd) && SoundBody(Names()) && Settled(Names().d, Names().dict) && b == Names()
      modifies this`end, data, dict
      ensures Valid() && end >= |b.d|
      ensures PushData(b, data.Length, rd) == if ok then Some(Names()) else None
      ensures !ok ==> Names() == b
    {
      match rd {
        case A(addr) => ok := PushFlat(addr, b.d);
        case Aaaa(addr) => ok := PushFlat(addr, b.d);
        case Raw(octets) => ok := PushFlat(octets, b.d);
        case Txt(text) => ok := PushText(text, b.d);
        case Host(name) => ok := PushHost(name, b);
        case Mx(preference, name) => ok := PushMx(preference, name, b);
        case Srv(priority, weight, port, name) => ok := PushSrv(priority, weight, port, name, b);
      }
    }

    /** Fixed octets behind the owner name and, but for a question, the data. */
    method WriteFields(e: Entry, ghost n: Body) returns (ok: bool)
      requires Valid() && (e.section != QD ==> Fits(e.typ, e.rd)) && Kept(n.d, n) && n == Names()
      modifies this`end, data, dict
      ensures Valid() && end >= |n.d| && data[..|n.d|] == n.d
      ensures PushFields(n, data.Length, e.section == QD, e.typ, e.cls, e.ttl, e.rd)
              == if ok then Some(Names()) else None
      ensures !ok ==> dict[..] == n.dict
    {
      if data.Length - end < 4 {
        return false;
      }
      PutOctets(Fixed(e.typ, e.cls));
      ghost var d := data[..end];
      assert d[..|n.d|] == n.d;
      if e.section == QD {
        return true;
      }
      if data.Length - end < 6 {
        return false;
      }
      PutOctets(Ttl(e.ttl));
      ghost var t := data[..end];
      assert t == n.d + (Fixed(e.typ, e.cls) + Ttl(e.ttl)) && t[..|n.d|] == n.d;
      AppendKept(n, Fixed(e.typ, e.cls) + Ttl(e.ttl), t);
      ghost var was := Names();
      ok := PushRdata(e.typ, e.rd, was);
      if ok {
        DataGoesOn(was, data.Length, e.rd);
      }
      assert data[..|n.d|] == data[..|t|][..|n.d|];
    }

    /** The part of `dns_p_push` that writes: owner name, fixed octets, data. */
    method WriteRecord(e: Entry, ghost b: Body) returns (ok: bool)
      requires Valid() && Writable(e) && SoundBody(Names()) && b == Names()
      modifies this`end, data, dict
      ensures Valid() && end >= |b.d| && data[..|b.d|] == b.d
      ensures PushRecord(b, data.Length, e.section == QD, e.name, e.typ, e.cls, e.ttl, e.rd)
              == if ok then Some(Names()) else None
      ensures !ok ==> dict[..] == DictAfterOwner(b, data.Length, e.name)
    {
      ok := PushOwner(e.name);
      if ok {
        ghost var n := Names();
        PushNameKept(b, data.Length, e.name);
        ok := WriteFields(e, n);
        assert data[..|b.d|] == data[..|n.d|][..|b.d|];
      }
    }

    method CountUp(i: nat)
      requires Valid() && i < 4
      modifies data
      ensures data[..end] == CountedUp(old(data[..end]), i)
    {
      var n := Count(data[..end], i) + 1;
      data[4 + 2 * i], data[5 + 2 * i] := (n / 256) % 256, n % 256;
    }

    /** What follows once a record is let in: a study if there was none, the count, the section's end. */
    method Enter(i: nat)
      requires Valid() && i < 4
      modifies this`memos, data
      ensures View() == Entered(old(memos), old(Names()), i)
    {
      if Base(memos, i) == 0 {
        memos := StudyPacket(data[..end]);
      }
      CountUp(i);
      memos := Moved(memos, i, end);
    }

    /** `dns_p_push`: on every error the packet ends where it ended before. */
    method Push(e: Entry) returns (r: Outcome)
      requires Valid() && Writable(e) && SoundBody(Names())
      modifies this, data, dict
      ensures Valid() && (r, View()) == DnsPacket.Push(old(View()), data.Length, e)
    {
      ghost var b := Names();
      var was := end;
      var ok := WriteRecord(e, b);
      if !ok {
        end := was;
        return NoBufs;
      }
      r := Verdict(data[..end], e.section);
      if r != Done {
        end := was;
        return;
      }
      Enter(Index(e.section));
    }
  }
}
