/**
 The octets of a resource record (sections 4.1.2 and 4.1.3 of RFC 1035): what `dns_p_push` and the
 pushers of the record types write, and what `dns_rr_parse` and their parsers read.
 */
module DnsRecords {
  import opened Wrappers
  import opened Bytes
  import opened DnsWalk
  import opened DnsRead
  import opened DnsCompress
  import opened DnsCompressSound
  import opened DnsDict
  import opened DnsSections

  const T_A: nat := 1
  const T_NS: nat := 2
  const T_CNAME: nat := 5
  const T_PTR: nat := 12
  const T_MX: nat := 15
  const T_TXT: nat := 16
  const T_AAAA: nat := 28
  const T_SRV: nat := 33
  const T_SPF: nat := 99
  /** SOA, OPT and SSHFP have pushers of their own. */
  const OTHER_TYPES: set<nat> := {6, 41, 44}

  /** Record data; names are dotted text. */
  datatype RData =
    | A(addr: seq<byte>)
    | Aaaa(addr: seq<byte>)
    | Host(name: seq<byte>)
    | Mx(preference: nat, exchange: seq<byte>)
    | Srv(priority: nat, weight: nat, port: nat, target: seq<byte>)
    | Txt(text: seq<byte>)
    | Raw(octets: seq<byte>)

  /** The data that a record of type `t` carries. */
  predicate Fits(t: nat, rd: RData) {
    match rd
    case A(addr) => t == T_A && |addr| == 4
    case Aaaa(addr) => t == T_AAAA && |addr| == 16
    case Host(name) => (t == T_NS || t == T_CNAME || t == T_PTR) && IsName(name)
    case Mx(preference, exchange) => t == T_MX && preference < 65536 && IsName(exchange)
    case Srv(priority, weight, port, target) =>
      t == T_SRV && priority < 65536 && weight < 65536 && port < 65536 && IsName(target)
    case Txt(_) => t == T_TXT || t == T_SPF
    case Raw(_) => t !in {T_A, T_NS, T_CNAME, T_PTR, T_MX, T_TXT, T_AAAA, T_SRV, T_SPF} && t !in OTHER_TYPES
  }

  /** Character strings of at most 255 octets, each behind its length. */
  function Chunks(s: seq<byte>): seq<byte>
    decreases |s|
  {
    if s == [] then []
    else
      var n := if |s| < 255 then |s| else 255;
      [n] + s[..n] + Chunks(s[n..])
  }

  function ChunksLength(n: nat): nat {
    n + (n + 254) / 255
  }

  lemma {:induction false} ChunksSize(s: seq<byte>)
    ensures |Chunks(s)| == ChunksLength(|s|)
    decreases |s|
  {
    if s != [] {
      var n := if |s| < 255 then |s| else 255;
      ChunksSize(s[n..]);
    }
  }

  /** A name in the data, behind fixed octets. */
  datatype Named = Named(front: seq<byte>, name: seq<byte>)

  function NameIn(rd: RData): Option<Named> {
    match rd
    case Host(name) => Some(Named([], name))
    case Mx(p, exchange) => Some(Named(Be16(p), exchange))
    case Srv(p, w, port, target) => Some(Named(Be16(p) + Be16(w) + Be16(port), target))
    case _ => None
  }

  /** Data without a name, as it is written. */
  function Flat(rd: RData): seq<byte> {
    match rd
    case A(addr) => addr
    case Aaaa(addr) => addr
    case Txt(text) => Chunks(text)
    case Raw(octets) => octets
    case _ => []
  }

  /** The dictionary's names; none where the dictionary is not readable. */
  function NamesOf(d: seq<byte>, dict: seq<nat>): (r: seq<Trail>)
    ensures AllValid(r)
  {
    if ReadableDict(d, dict) then Names(d, dict) else []
  }

  /** A name compressed against `names` behind `front`, in `room` octets. */
  function WithName(names: seq<Trail>, room: int, front: seq<byte>, name: seq<byte>): Option<seq<byte>>
    requires AllValid(names)
  {
    if room < |front| then None
    else
      var w := Compressed(names, name, room - |front|);
      if |w| > room - |front| then None else Some(front + w)
  }

  /** What follows the two length octets, given the room behind them. */
  function Payload(names: seq<Trail>, room: int, rd: RData): (r: Option<seq<byte>>)
    requires AllValid(names)
    ensures r.Some? ==> |r.value| <= room
  {
    match rd
    case A(addr) => if room < 4 then None else if |addr| == 4 then Some(addr) else None
    case Aaaa(addr) => if room < 16 then None else if |addr| == 16 then Some(addr) else None
    case Host(name) => if room < 1 then None else WithName(names, room, [], name)
    case Mx(p, exchange) => if room < 3 then None else WithName(names, room, Be16(p), exchange)
    case Srv(p, w, port, target) => if room < 6 then None
                                    else WithName(names, room, Be16(p) + Be16(w) + Be16(port), target)
    case Txt(text) => if room < |Chunks(text)| then None else Some(Chunks(text))
    case Raw(octets) => if room < |octets| then None else Some(octets)
  }

  /** Names in the data of NS, CNAME, PTR and MX records enter the dictionary; those of SRV records do not. */
  function NameOffset(rd: RData): Option<nat> {
    match rd
    case Host(_) => Some(0)
    case Mx(_, _) => Some(2)
    case _ => None
  }

  /** The time to live as written: its top bit is dropped. */
  function Ttl(ttl: nat): (s: seq<byte>)
    ensures |s| == 4
  {
    [(ttl / 0x1000000) % 128, (ttl / 0x10000) % 256, (ttl / 0x100) % 256, ttl % 256]
  }

  datatype Body = Body(d: seq<byte>, dict: seq<nat>)

  function PushNameWith(b: Body, names: seq<Trail>, size: nat, name: seq<byte>): (r: Option<Body>)
    requires AllValid(names)
    ensures r.Some? ==> |b.d| <= |r.value.d|
  {
    if size < |b.d| then None
    else
      var w := Compressed(names, name, size - |b.d|);
      if |w| > size - |b.d| then None else Some(Body(b.d + w, DictAdded(b.d + w, b.dict, |b.d|)))
  }

  /** The owner name. */
  function PushName(b: Body, size: nat, name: seq<byte>): (r: Option<Body>)
    ensures r.Some? ==> |b.d| <= |r.value.d|
  {
    PushNameWith(b, NamesOf(b.d, b.dict), size, name)
  }

  function PushDataWith(b: Body, names: seq<Trail>, size: nat, rd: RData): (r: Option<Body>)
    requires AllValid(names)
    ensures r.Some? ==> |b.d| <= |r.value.d|
  {
    var p := Payload(names, size - |b.d| - 2, rd);
    if p.None? then None
    else
      var d := b.d + Be16(|p.value|) + p.value;
      var at := NameOffset(rd);
      Some(Body(d, if at.Some? then DictAdded(d, b.dict, |b.d| + 2 + at.value) else b.dict))
  }

  /** Length and data. */
  function PushData(b: Body, size: nat, rd: RData): (r: Option<Body>)
    ensures r.Some? ==> |b.d| <= |r.value.d|
  {
    PushDataWith(b, NamesOf(b.d, b.dict), size, rd)
  }

  function Fixed(typ: nat, cls: nat): (s: seq<byte>)
    ensures |s| == 4
  {
    Be16(typ) + Be16(cls)
  }

  /** The fixed octets behind the owner name and, but for a question, the data. */
  function PushFields(n: Body, size: nat, question: bool, typ: nat, cls: nat, ttl: nat, rd: RData): (r: Option<Body>)
    ensures r.Some? ==> |n.d| <= |r.value.d|
  {
    if size - |n.d| < 4 then None
    else
      var d := n.d + Fixed(typ, cls);
      if question then Some(Body(d, n.dict))
      else if size - |d| < 6 then None
      else PushData(Body(d + Ttl(ttl), n.dict), size, rd)
  }

  /** All of a record; `None` is DNS_ENOBUFS. */
  function PushRecord(b: Body, size: nat, question: bool, name: seq<byte>, typ: nat, cls: nat, ttl: nat,
                      rd: RData): (r: Option<Body>)
    ensures r.Some? ==> |b.d| <= |r.value.d|
  {
    var n := PushName(b, size, name);
    if n.None? then None else PushFields(n.value, size, question, typ, cls, ttl, rd)
  }

  // ---------------------------------------------------------------- reading

  /** A parsed record head: its name, its fixed fields and where its data lies. */
  datatype Rr = Rr(dnp: nat, dnlen: nat, typ: nat, cls: nat, question: bool, ttl: nat, rdp: nat, rdlen: nat)

  /** `dns_rr_parse`; `None` is DNS_EILLEGAL. */
  function RrParse(d: seq<byte>, src: nat): Option<Rr>
    requires HEADER <= |d|
  {
    if src >= |d| then None
    else
      var p := Skip(d, src);
      if |d| - p < 4 then None
      else
        var typ, cls := Read16(d, p), Read16(d, p + 2);
        if src < QEnd(d) then Some(Rr(src, p - src, typ, cls, true, 0, 0, 0))
        else if |d| - (p + 4) < 4 || |d| - (p + 8) < 2 then None
        else
          var ttl := (d[p + 4] as int % 128) * 0x1000000 + d[p + 5] as int * 0x10000 + d[p + 6] as int * 0x100
            + d[p + 7];
          var rdlen := Read16(d, p + 8);
          if |d| - (p + 10) < rdlen then None
          else Some(Rr(src, p - src, typ, cls, false, ttl, p + 10, rdlen))
  }

  method ParseRecord(d: seq<byte>, src: nat) returns (rr: Option<Rr>)
    requires HEADER <= |d|
    ensures rr == RrParse(d, src)
  {
    if src >= |d| {
      return None;
    }
    var p := SkipName(d, src);
    if |d| - p < 4 {
      return None;
    }
    var dnlen, typ, cls := p - src, Read16(d, p), Read16(d, p + 2);
    p := p + 4;
    var qend := QuestionEnd(d);
    if src < qend {
      return Some(Rr(src, dnlen, typ, cls, true, 0, 0, 0));
    }
    if |d| - p < 4 {
      return None;
    }
    var ttl := (d[p] as int % 128) * 0x1000000 + d[p + 1] as int * 0x10000 + d[p + 2] as int * 0x100 + d[p + 3];
    p := p + 4;
    if |d| - p < 2 {
      return None;
    }
    var rdlen := Read16(d, p);
    p := p + 2;
    if |d| - p < rdlen {
      return None;
    }
    rr := Some(Rr(src, dnlen, typ, cls, false, ttl, p, rdlen));
  }

  // ---------------------------------------------------------------- layout

  /** A record stands in full at [o, o'). */
  predicate RecordAt(d: seq<byte>, question: bool, o: nat, o': nat) {
    HEADER <= o < |d| && o' <= |d|
    && var s := Skip(d, o);
       if question then o' == s + 4 else s + 10 <= |d| && o' == s + 10 + Read16(d, s + 8)
  }

  /** The records of a packet, one behind another, the first `q` of them questions. */
  predicate Records(d: seq<byte>, offs: seq<nat>, q: nat) {
    HEADER <= |d| && q < |offs| && offs[0] == HEADER
    && forall i :: 0 <= i < |offs| - 1 ==> RecordAt(d, i < q, offs[i], offs[i + 1])
  }

  lemma {:induction false} OffsetsRise(d: seq<byte>, offs: seq<nat>, q: nat, i: nat, j: nat)
    requires Records(d, offs, q) && i <= j < |offs|
    ensures HEADER <= offs[i] && offs[i] + (j - i) <= offs[j] <= |d|
    decreases j
  {
    if j > 0 {
      assert RecordAt(d, j - 1 < q, offs[j - 1], offs[j]);
      if i < j {
        OffsetsRise(d, offs, q, i, j - 1);
      } else {
        OffsetsRise(d, offs, q, j - 1, j - 1);
      }
    }
  }

  lemma {:induction false} QuestionsEnd(d: seq<byte>, offs: seq<nat>, q: nat, i: nat)
    requires Records(d, offs, q) && i <= q
    ensures QEndFrom(d, offs[i], q - i) == offs[q]
    decreases q - i
  {
    OffsetsRise(d, offs, q, i, q);
    if i < q {
      assert RecordAt(d, true, offs[i], offs[i + 1]);
      QuestionsEnd(d, offs, q, i + 1);
    }
  }

  /** Stepping over a record leads to the next one. */
  lemma {:induction false} SkipsRecord(d: seq<byte>, offs: seq<nat>, q: nat, i: nat)
    requires Records(d, offs, q) && Count(d, 0) == q && i < |offs| - 1
    ensures offs[i] < |d| && RrSkip(d, offs[i]) == offs[i + 1]
  {
    QuestionsEnd(d, offs, q, 0);
    assert RecordAt(d, i < q, offs[i], offs[i + 1]);
    if i < q {
      OffsetsRise(d, offs, q, i + 1, q);
    } else {
      OffsetsRise(d, offs, q, q, i);
    }
  }

  lemma {:induction false} LayoutBoundaries(d: seq<byte>, offs: seq<nat>, q: nat, i: nat)
    requires Records(d, offs, q) && Count(d, 0) == q && i < |offs|
    ensures Boundary(Skipper(d), |d|, i) == offs[i]
  {
    if i > 0 {
      LayoutBoundaries(d, offs, q, i - 1);
      SkipsRecord(d, offs, q, i - 1);
    }
  }

  lemma {:induction false} SkipGrow(d: seq<byte>, d': seq<byte>, p: nat)
    requires SameBody(d', d) && HEADER <= p && Skip(d, p) < |d|
    ensures Skip(d', p) == Skip(d, p)
    decreases |d| - p
  {
    assert d'[p] == d[p];
    if d[p] / 64 == 0 && d[p] % 64 != 0 {
      SkipGrow(d, d', p + 1 + d[p] % 64);
    }
  }

  lemma RecordGrow(d: seq<byte>, d': seq<byte>, question: bool, o: nat, o': nat)
    requires SameBody(d', d) && RecordAt(d, question, o, o')
    ensures RecordAt(d', question, o, o') && Skip(d', o) == Skip(d, o)
  {
    SkipGrow(d, d', o);
  }

  lemma RecordsGrow(d: seq<byte>, d': seq<byte>, offs: seq<nat>, q: nat)
    requires SameBody(d', d) && Records(d, offs, q)
    ensures Records(d', offs, q)
  {
    forall i | 0 <= i < |offs| - 1 ensures RecordAt(d', i < q, offs[i], offs[i + 1]) {
      RecordGrow(d, d', i < q, offs[i], offs[i + 1]);
    }
  }

  /** One more record behind the last; a question only while there are none but questions. */
  lemma RecordsAppend(d: seq<byte>, offs: seq<nat>, q: nat, question: bool, o': nat)
    requires Records(d, offs, q) && RecordAt(d, question, offs[|offs| - 1], o') && (question ==> q == |offs| - 1)
    ensures Records(d, offs + [o'], if question then q + 1 else q)
  {
    var q' := if question then q + 1 else q;
    var offs' := offs + [o'];
    forall i | 0 <= i < |offs'| - 1 ensures RecordAt(d, i < q', offs'[i], offs'[i + 1]) {
      if i < |offs| - 1 {
        assert RecordAt(d, i < q, offs[i], offs[i + 1]);
      }
    }
  }
}
