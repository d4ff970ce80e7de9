/**
 Reading record data back: the parsers behind `dns_any_parse`.
 */
module DnsParse {
  import opened Wrappers
  import opened Bytes
  import opened DnsWalk
  import opened DnsRead
  import opened DnsCompress
  import opened DnsCompressSound
  import opened DnsDict
  import opened DnsRecords

  /** DNS_D_MAXNAME + 1, the size of every buffer for a host name. */
  const HOST_SIZE: nat := 256

  /** What the caller's buffers hold (`text`, `raw`) and what is free behind the packet (`slack`). */
  datatype Room = Room(text: nat, raw: nat, slack: nat)

  /** The name at `p` as text, if it ends properly and the text and its NUL fit. */
  function HostText(d: seq<byte>, p: nat): Option<seq<byte>> {
    var r := NameAt(View(d, 0, MAX_POINTERS), p);
    if r.Name? && r.ok && |Text(r.labels)| < HOST_SIZE then Some(Text(r.labels)) else None
  }

  function Behind(done: seq<byte>, rest: Option<seq<byte>>): Option<seq<byte>> {
    if rest.None? then None else Some(done + rest.value)
  }

  /** The octets of the character strings at [src, end), if they are complete and at most `room`. */
  function Unchunk(d: seq<byte>, src: nat, end: nat, room: nat): Option<seq<byte>>
    requires end <= |d|
    decreases end - src
  {
    if src >= end then Some([])
    else
      var n := d[src];
      if end - (src + 1) < n || room < n then None
      else Behind(d[src + 1..src + 1 + n], Unchunk(d, src + 1 + n, end, room - n))
  }

  function RData(rr: Rr, d: seq<byte>): seq<byte>
    requires rr.rdp + rr.rdlen <= |d|
  {
    d[rr.rdp..rr.rdp + rr.rdlen]
  }

  function OnHost(h: Option<seq<byte>>, make: seq<byte> -> DnsRecords.RData): Option<DnsRecords.RData> {
    if h.None? then None else Some(make(h.value))
  }

  /**
   `dns_any_parse`; `None` is DNS_EILLEGAL.  An SRV record is refused when fewer than six octets
   are free behind the packet, whatever it holds.
   */
  function ParseData(d: seq<byte>, rr: Rr, room: Room): Option<DnsRecords.RData>
    requires rr.rdp + rr.rdlen <= |d|
  {
    var p := rr.rdp;
    if rr.typ == T_A then (if rr.rdlen != 4 then None else Some(A(RData(rr, d))))
    else if rr.typ == T_AAAA then (if rr.rdlen != 16 then None else Some(Aaaa(RData(rr, d))))
    else if rr.typ in {T_NS, T_CNAME, T_PTR} then OnHost(HostText(d, p), h => Host(h))
    else if rr.typ == T_MX then
      if rr.rdlen < 3 then None else OnHost(HostText(d, p + 2), h => Mx(Read16(d, p), h))
    else if rr.typ == T_SRV then
      if room.slack < 6 || |d| < p + 6 then None
      else OnHost(HostText(d, p + 6), h => Srv(Read16(d, p), Read16(d, p + 2), Read16(d, p + 4), h))
    else if rr.typ in {T_TXT, T_SPF} then
      var t := Unchunk(d, p, p + rr.rdlen, room.text);
      if t.None? then None else Some(Txt(t.value))
    else if rr.rdlen > room.raw then None
    else Some(Raw(RData(rr, d)))
  }

  /** `dns_ns_parse`, and the last step of `dns_mx_parse` and `dns_srv_parse`. */
  method ParseHost(host: array<byte>, d: seq<byte>, p: nat) returns (ok: bool)
    requires host.Length == HOST_SIZE && NameAt(View(d, 0, MAX_POINTERS), p).Name?
    modifies host
    ensures ok == HostText(d, p).Some?
    ensures ok ==> HoldsText(host[..], HostText(d, p).value)
  {
    var len := ExpandName(host, d, p);
    ghost var r := NameAt(View(d, 0, MAX_POINTERS), p);
    EmitGrows([], r.labels);
    ok := len != 0 && len < HOST_SIZE;
  }

  lemma BehindBehind(a: seq<byte>, b: seq<byte>, o: Option<seq<byte>>)
    ensures Behind(a, Behind(b, o)) == Behind(a + b, o)
  {
    assert o.Some? ==> a + (b + o.value) == (a + b) + o.value;
  }

  method CopyInto(dst: array<byte>, len: nat, b: seq<byte>, ghost s: seq<byte>)
    requires len + |b| <= dst.Length && dst[..len] == s
    modifies dst
    ensures dst[..len + |b|] == s + b
  {
    forall i | 0 <= i < |b| {
      dst[len + i] := b[i];
    }
  }

  /** `dns_txt_parse`. */
  method ParseText(dst: array<byte>, d: seq<byte>, rr: Rr) returns (ok: bool, len: nat)
    requires rr.rdp + rr.rdlen <= |d|
    modifies dst
    ensures ok == Unchunk(d, rr.rdp, rr.rdp + rr.rdlen, dst.Length).Some?
    ensures ok ==> len <= dst.Length && dst[..len] == Unchunk(d, rr.rdp, rr.rdp + rr.rdlen, dst.Length).value
  {
    ghost var all := Unchunk(d, rr.rdp, rr.rdp + rr.rdlen, dst.Length);
    var end := rr.rdp + rr.rdlen;
    var src: nat := rr.rdp;
    len := 0;
    assert all.Some? ==> [] + all.value == all.value;
    while src < end
      invariant rr.rdp <= src <= end && len <= dst.Length
      invariant all == Behind(dst[..len], Unchunk(d, src, end, dst.Length - len))
    {
      var n := d[src];
      if end - (src + 1) < n || dst.Length - len < n {
        return false, len;
      }
      ghost var s := dst[..len];
      CopyInto(dst, len, d[src + 1..src + 1 + n], s);
      BehindBehind(s, d[src + 1..src + 1 + n], Unchunk(d, src + 1 + n, end, dst.Length - len - n));
      len := len + n;
      src := src + 1 + n;
    }
    ok := true;
  }
}
