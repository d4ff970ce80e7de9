/**
 The order of records in terms of their octets: which of two records of one section, class and owner comes first, type
 by type, and so in which order iteration under `dns_rr_i_order` gives them.
 */
module DnsOrderLaws {
  import opened Wrappers
  import opened Bytes
  import opened DnsRead
  import opened DnsDict
  import opened DnsSections
  import opened DnsRecords
  import DnsParse
  import opened DnsSelect
  import opened DnsGrep
  import opened DnsOrder

  // ---------------------------------------------------------------- the sign of strcasecmp

  /** The octet at `i` of a C string, letters in lower case; zero behind its end. */
  function SmallAt(s: seq<byte>, i: nat): nat {
    if i >= |s| then 0 else if 65 <= s[i] <= 90 then s[i] as int + 32 else s[i]
  }

  /** The strings agree before `i`, and neither ends there. */
  predicate AgreeTo(a: seq<byte>, b: seq<byte>, i: nat) {
    forall k: nat :: k < i ==> SmallAt(a, k) == SmallAt(b, k) != 0
  }

  /** Where the strings differ first, `a` has the smaller octet. */
  ghost predicate Earlier(a: seq<byte>, b: seq<byte>) {
    exists i: nat :: AgreeTo(a, b, i) && SmallAt(a, i) < SmallAt(b, i)
  }

  ghost predicate Signs(c: int, less: bool, more: bool) {
    (c < 0 <==> less) && (c > 0 <==> more)
  }

  lemma {:induction false} CaseDiffers(a: seq<byte>, b: seq<byte>, i: nat)
    requires AgreeTo(a, b, i)
    ensures var c := CaseFrom(a, b, i);
            if c == 0 then exists k: nat :: AgreeTo(a, b, k) && SmallAt(a, k) == SmallAt(b, k) == 0
            else exists k: nat :: AgreeTo(a, b, k) && c == SmallAt(a, k) - SmallAt(b, k)
    decreases |a| - i
  {
    if SmallAt(a, i) == SmallAt(b, i) != 0 {
      CaseDiffers(a, b, i + 1);
    } else {
      assert AgreeTo(a, b, i);
    }
  }

  lemma OneDifference(a: seq<byte>, b: seq<byte>, i: nat, k: nat)
    requires AgreeTo(a, b, i) && (SmallAt(a, i) != SmallAt(b, i) || SmallAt(a, i) == 0)
    requires AgreeTo(a, b, k) && (SmallAt(a, k) != SmallAt(b, k) || SmallAt(a, k) == 0)
    ensures i == k
  {
  }

  /** `strcasecmp` is negative exactly if the first string is earlier, and positive exactly if the second is. */
  lemma {:induction false} CaseSign(a: seq<byte>, b: seq<byte>)
    ensures Signs(CaseFrom(a, b, 0), Earlier(a, b), Earlier(b, a))
  {
    CaseDiffers(a, b, 0);
    var c := CaseFrom(a, b, 0);
    var k: nat :| AgreeTo(a, b, k) && (if c == 0 then SmallAt(a, k) == SmallAt(b, k) == 0
                                       else c == SmallAt(a, k) - SmallAt(b, k));
    forall i: nat | AgreeTo(a, b, i) && SmallAt(a, i) != SmallAt(b, i) ensures i == k {
      OneDifference(a, b, i, k);
    }
    forall i: nat | AgreeTo(b, a, i) ensures AgreeTo(a, b, i) {
    }
    assert AgreeTo(b, a, k);
  }

  // ---------------------------------------------------------------- records of one owner

  /** The unsigned number in two octets, and in four. */
  function Two(d: seq<byte>, p: nat): nat
    requires p + 2 <= |d|
  {
    d[p] as int * 256 + d[p + 1]
  }

  function Four(d: seq<byte>, p: nat): nat
    requires p + 4 <= |d|
  {
    d[p] as int * 0x100_0000 + d[p + 1] as int * 0x1_0000 + d[p + 2] as int * 256 + d[p + 3]
  }

  /** Two records of type `t` and of one section, class and owner, whose data parses; no questions. */
  predicate Peers(d: seq<byte>, room: DnsParse.Room, x: Item, y: Item, t: nat) {
    Inside(d, x) && Inside(d, y) && x.rr.typ == t == y.rr.typ && x.section == y.section != 1 && x.rr.cls == y.rr.cls
    && DnsParse.HostText(d, x.rr.dnp).Some? && DnsParse.HostText(d, y.rr.dnp).Some?
    && CaseEq(DnsParse.HostText(d, x.rr.dnp).value, DnsParse.HostText(d, y.rr.dnp).value)
    && Parsed(d, x.rr, room).Some? && Parsed(d, y.rr, room).Some?
  }

  lemma PeersCompare(d: seq<byte>, room: DnsParse.Room, x: Item, y: Item, t: nat)
    requires Peers(d, room, x, y, t) && t in COMPARED
    ensures ItemOrder(d, room, x, y) == Compare(Parsed(d, x.rr, room).value, Parsed(d, y.rr, room).value)
  {
    var host0, host1 := DnsParse.HostText(d, x.rr.dnp).value, DnsParse.HostText(d, y.rr.dnp).value;
    SameFrom(host0, host1, 0);
    WholeFrom(host0);
    WholeFrom(host1);
  }

  lemma NumberFirst(m: int, n: int, r: Fields, s: Fields)
    ensures Compare(Then(Number(m), r), Then(Number(n), s)) == if m != n then m - n else Compare(r, s)
  {
  }

  lemma TextFirst(a: seq<byte>, b: seq<byte>, r: Fields, s: Fields)
    ensures Compare(Then(Text(a), r), Then(Text(b), s))
            == if CaseFrom(a, b, 0) != 0 then CaseFrom(a, b, 0) else Compare(r, s)
  {
  }

  /** The name in the data of `x` at `p` is earlier than the one in that of `y` at `q`. */
  ghost predicate NameEarlier(d: seq<byte>, p: nat, q: nat) {
    DnsParse.HostText(d, p).Some? && DnsParse.HostText(d, q).Some?
    && Earlier(DnsParse.HostText(d, p).value, DnsParse.HostText(d, q).value)
  }

  lemma NamesCompare(d: seq<byte>, p: nat, q: nat, r: Fields, s: Fields)
    requires DnsParse.HostText(d, p).Some? && DnsParse.HostText(d, q).Some? && (r == End <==> s == End)
    ensures var a, b := DnsParse.HostText(d, p).value, DnsParse.HostText(d, q).value;
            r == End ==> Signs(Compare(Then(Text(a), r), Then(Text(b), s)), NameEarlier(d, p, q), NameEarlier(d, q, p))
  {
    var a, b := DnsParse.HostText(d, p).value, DnsParse.HostText(d, q).value;
    TextFirst(a, b, r, s);
    CaseSign(a, b);
  }

  // ---------------------------------------------------------------- type by type

  /** Addresses: the smaller number first. */
  lemma {:induction false} AddressOrder(d: seq<byte>, room: DnsParse.Room, x: Item, y: Item)
    requires Peers(d, room, x, y, 1)
    ensures x.rr.rdp + 4 <= |d| && y.rr.rdp + 4 <= |d|
    ensures Signs(ItemOrder(d, room, x, y), Four(d, x.rr.rdp) < Four(d, y.rr.rdp),
                  Four(d, y.rr.rdp) < Four(d, x.rr.rdp))
  {
    PeersCompare(d, room, x, y, 1);
    NumberFirst(Four(d, x.rr.rdp), Four(d, y.rr.rdp), End, End);
  }

  /** Where the octets differ first, those of `a` have the smaller one. */
  ghost predicate Smaller(a: seq<byte>, b: seq<byte>)
    requires |a| == |b|
  {
    exists k :: 0 <= k < |a| && a[k] < b[k] && a[..k] == b[..k]
  }

  lemma SmallerFrom(a: seq<byte>, b: seq<byte>, p: nat)
    requires |a| == |b| && p < |a| && a[..p] == b[..p]
    ensures a[p] < b[p] ==> Smaller(a, b) && !Smaller(b, a)
    ensures a[p] == b[p] ==> a[..p + 1] == b[..p + 1]
  {
    if a[p] < b[p] {
      forall k | 0 <= k < |a| ensures !(b[k] < a[k] && b[..k] == a[..k]) {
        if k < p {
          assert a[..p][k] == b[..p][k];
        } else if k > p {
          assert a[..k][p] == a[p];
          assert b[..k][p] == b[p];
        }
      }
    }
  }

  lemma {:induction false} OctetsSign(a: seq<byte>, b: seq<byte>, p: nat)
    requires |a| == |b| && p <= |a| && a[..p] == b[..p]
    ensures Signs(Compare(Octets(a, p, |a|, End), Octets(b, p, |b|, End)), Smaller(a, b), Smaller(b, a))
    decreases |a| - p
  {
    if p < |a| {
      SmallerFrom(a, b, p);
      SmallerFrom(b, a, p);
      if a[p] == b[p] {
        OctetsSign(a, b, p + 1);
      }
      NumberFirst(a[p], b[p], Octets(a, p + 1, |a|, End), Octets(b, p + 1, |b|, End));
    } else {
      assert a[..p] == a && b[..p] == b;
    }
  }

  /** The `n` octets at `p`. */
  function Part(d: seq<byte>, p: nat, n: nat): (s: seq<byte>)
    requires p + n <= |d|
    ensures |s| == n
  {
    d[p..p + n]
  }

  lemma LongAddressFields(d: seq<byte>, room: DnsParse.Room, x: Item)
    requires Inside(d, x) && x.rr.typ == 28 && Parsed(d, x.rr, room).Some?
    ensures x.rr.rdp + 16 <= |d| && Parsed(d, x.rr, room).value == Octets(Part(d, x.rr.rdp, 16), 0, 16, End)
  {
  }

  /** IPv6 addresses: where they differ first, the smaller octet first. */
  lemma {:induction false} LongAddressOrder(d: seq<byte>, room: DnsParse.Room, x: Item, y: Item)
    requires Peers(d, room, x, y, 28)
    ensures x.rr.rdp + 16 <= |d| && y.rr.rdp + 16 <= |d|
    ensures var a, b := Part(d, x.rr.rdp, 16), Part(d, y.rr.rdp, 16);
            Signs(ItemOrder(d, room, x, y), Smaller(a, b), Smaller(b, a))
  {
    PeersCompare(d, room, x, y, 28);
    LongAddressFields(d, room, x);
    LongAddressFields(d, room, y);
    OctetsSign(Part(d, x.rr.rdp, 16), Part(d, y.rr.rdp, 16), 0);
  }

  /** NS, CNAME and PTR records: the earlier name first. */
  lemma {:induction false} HostOrder(d: seq<byte>, room: DnsParse.Room, x: Item, y: Item, t: nat)
    requires Peers(d, room, x, y, t) && t in {2, 5, 12}
    ensures Signs(ItemOrder(d, room, x, y), NameEarlier(d, x.rr.rdp, y.rr.rdp), NameEarlier(d, y.rr.rdp, x.rr.rdp))
  {
    PeersCompare(d, room, x, y, t);
    NamesCompare(d, x.rr.rdp, y.rr.rdp, End, End);
  }

  /** A number and a name, as an MX record has them. */
  function NumberAndName(d: seq<byte>, p: nat): Fields
    requires p + 2 <= |d| && DnsParse.HostText(d, p + 2).Some?
  {
    Then(Number(Two(d, p)), Then(Text(DnsParse.HostText(d, p + 2).value), End))
  }

  /** The smaller preference is better, and for one preference the earlier exchange. */
  ghost predicate BetterMx(d: seq<byte>, p: nat, q: nat)
    requires p + 2 <= |d| && q + 2 <= |d|
  {
    Two(d, p) < Two(d, q) || (Two(d, p) == Two(d, q) && NameEarlier(d, p + 2, q + 2))
  }

  lemma NumbersCompare(d: seq<byte>, p: nat, q: nat)
    requires p + 2 <= |d| && q + 2 <= |d| && DnsParse.HostText(d, p + 2).Some? && DnsParse.HostText(d, q + 2).Some?
    ensures Signs(Compare(NumberAndName(d, p), NumberAndName(d, q)), BetterMx(d, p, q), BetterMx(d, q, p))
  {
    var a, b := DnsParse.HostText(d, p + 2).value, DnsParse.HostText(d, q + 2).value;
    NumberFirst(Two(d, p), Two(d, q), Then(Text(a), End), Then(Text(b), End));
    NamesCompare(d, p + 2, q + 2, End, End);
  }

  lemma MxFields(d: seq<byte>, room: DnsParse.Room, x: Item)
    requires Inside(d, x) && x.rr.typ == 15 && Parsed(d, x.rr, room).Some?
    ensures x.rr.rdp + 2 <= |d| && DnsParse.HostText(d, x.rr.rdp + 2).Some?
    ensures Parsed(d, x.rr, room).value == NumberAndName(d, x.rr.rdp)
  {
  }

  lemma {:induction false} MxOrder(d: seq<byte>, room: DnsParse.Room, x: Item, y: Item)
    requires Peers(d, room, x, y, 15)
    ensures x.rr.rdp + 2 <= |d| && y.rr.rdp + 2 <= |d|
    ensures Signs(ItemOrder(d, room, x, y), BetterMx(d, x.rr.rdp, y.rr.rdp), BetterMx(d, y.rr.rdp, x.rr.rdp))
  {
    PeersCompare(d, room, x, y, 15);
    MxFields(d, room, x);
    MxFields(d, room, y);
    NumbersCompare(d, x.rr.rdp, y.rr.rdp);
  }

  /** Priority, then weight, then port, the smaller first, then the earlier target. */
  ghost predicate BetterSrv(d: seq<byte>, p: nat, q: nat)
    requires p + 6 <= |d| && q + 6 <= |d|
  {
    Two(d, p) < Two(d, q)
    || (Two(d, p) == Two(d, q)
        && (Two(d, p + 2) < Two(d, q + 2)
            || (Two(d, p + 2) == Two(d, q + 2)
                && (Two(d, p + 4) < Two(d, q + 4) || (Two(d, p + 4) == Two(d, q + 4)
                   && NameEarlier(d, p + 6, q + 6))))))
  }

  lemma {:induction false} SrvOrder(d: seq<byte>, room: DnsParse.Room, x: Item, y: Item)
    requires Peers(d, room, x, y, 33)
    ensures x.rr.rdp + 6 <= |d| && y.rr.rdp + 6 <= |d|
    ensures Signs(ItemOrder(d, room, x, y), BetterSrv(d, x.rr.rdp, y.rr.rdp), BetterSrv(d, y.rr.rdp, x.rr.rdp))
  {
    PeersCompare(d, room, x, y, 33);
    SrvFields(d, room, x);
    SrvFields(d, room, y);
    SrvCompare(d, x.rr.rdp, y.rr.rdp);
  }

  /** The members of an SRV record. */
  function Members(d: seq<byte>, p: nat): Fields
    requires p + 6 <= |d| && DnsParse.HostText(d, p + 6).Some?
  {
    Then(Number(Two(d, p)), Then(Number(Two(d, p + 2)), NumberAndName(d, p + 4)))
  }

  lemma SrvFields(d: seq<byte>, room: DnsParse.Room, x: Item)
    requires Inside(d, x) && x.rr.typ == 33 && Parsed(d, x.rr, room).Some?
    ensures x.rr.rdp + 6 <= |d| && DnsParse.HostText(d, x.rr.rdp + 6).Some?
    ensures Parsed(d, x.rr, room).value == Members(d, x.rr.rdp)
  {
  }

  lemma SrvCompare(d: seq<byte>, p: nat, q: nat)
    requires p + 6 <= |d| && q + 6 <= |d| && DnsParse.HostText(d, p + 6).Some? && DnsParse.HostText(d, q + 6).Some?
    ensures Signs(Compare(Members(d, p), Members(d, q)), BetterSrv(d, p, q), BetterSrv(d, q, p))
  {
    NumbersCompare(d, p + 4, q + 4);
    var a, b := Then(Number(Two(d, p + 2)), NumberAndName(d, p + 4)),
      Then(Number(Two(d, q + 2)), NumberAndName(d, q + 4));
    NumberFirst(Two(d, p + 2), Two(d, q + 2), NumberAndName(d, p + 4), NumberAndName(d, q + 4));
    NumberFirst(Two(d, p), Two(d, q), a, b);
  }

  /** The `n` numbers at `p` and at `q` agree before the `k`-th, where the first is the larger. */
  predicate LaterAt(d: seq<byte>, p: nat, q: nat, n: nat, k: nat)
    requires p + 4 * n <= |d| && q + 4 * n <= |d|
  {
    k < n && Four(d, p + 4 * k) > Four(d, q + 4 * k) && forall i: nat :: i < k ==>
      Four(d, p + 4 * i) == Four(d, q + 4 * i)
  }

  ghost predicate Later(d: seq<byte>, p: nat, q: nat, n: nat)
    requires p + 4 * n <= |d| && q + 4 * n <= |d|
  {
    exists k: nat :: LaterAt(d, p, q, n, k)
  }

  lemma LaterHere(d: seq<byte>, p: nat, q: nat, n: nat, k: nat)
    requires p + 4 * n <= |d| && q + 4 * n <= |d| && LaterAt(d, p, q, n, k)
    ensures Later(d, p, q, n) && !Later(d, q, p, n)
  {
    forall i: nat ensures !LaterAt(d, q, p, n, i) {
    }
  }

  /** From the `k`-th number on. */
  lemma {:induction false} LatersSign(d: seq<byte>, p: nat, q: nat, n: nat, k: nat)
    requires p + 4 * n <= |d| && q + 4 * n <= |d| && k <= n
    requires forall i: nat :: i < k ==> Four(d, p + 4 * i) == Four(d, q + 4 * i)
    ensures Signs(Compare(Laters(d, p + 4 * k, n - k), Laters(d, q + 4 * k, n - k)), Later(d, p, q, n),
                  Later(d, q, p, n))
    decreases n - k
  {
    if k < n {
      var a: int, b: int := Four(d, p + 4 * k), Four(d, q + 4 * k);
      if a == b {
        LatersSign(d, p, q, n, k + 1);
      } else if a > b {
        LaterHere(d, p, q, n, k);
      } else {
        LaterHere(d, q, p, n, k);
      }
      NumberFirst(-a, -b, Laters(d, p + 4 * (k + 1), n - (k + 1)), Laters(d, q + 4 * (k + 1), n - (k + 1)));
    }
  }

  ghost predicate NamesTie(d: seq<byte>, p: nat, q: nat) {
    !NameEarlier(d, p, q) && !NameEarlier(d, q, p)
  }

  lemma NameThen(d: seq<byte>, p: nat, q: nat, r: Fields, s: Fields, less: bool, more: bool)
    requires DnsParse.HostText(d, p).Some? && DnsParse.HostText(d, q).Some? && Signs(Compare(r, s), less, more)
    ensures Signs(Compare(Then(Text(DnsParse.HostText(d, p).value), r), Then(Text(DnsParse.HostText(d, q).value), s)),
              NameEarlier(d, p, q) || (NamesTie(d, p, q) && less), NameEarlier(d, q, p) || (NamesTie(d, p, q) && more))
  {
    var a, b := DnsParse.HostText(d, p).value, DnsParse.HostText(d, q).value;
    TextFirst(a, b, r, s);
    CaseSign(a, b);
  }

  /** Primary server, then mailbox, then serial number and the four times, of which the larger first. */
  ghost predicate SoaFirst(d: seq<byte>, p: nat, q: nat)
    requires SoaFits(d, p) && SoaFits(d, q)
  {
    var p1, q1 := Skip(d, p), Skip(d, q);
    NameEarlier(d, p, q)
    || (NamesTie(d, p, q) && (NameEarlier(d, p1, q1) || (NamesTie(d, p1, q1) && Later(d, Skip(d, p1), Skip(d, q1), 5))))
  }

  predicate SoaFits(d: seq<byte>, p: nat) {
    Skip(d, Skip(d, p)) + 20 <= |d| && DnsParse.HostText(d, p).Some? && DnsParse.HostText(d, Skip(d, p)).Some?
  }

  function SoaMembers(d: seq<byte>, p: nat): Fields
    requires SoaFits(d, p)
  {
    var q := Skip(d, p);
    Then(Text(DnsParse.HostText(d, p).value), Then(Text(DnsParse.HostText(d, q).value), Laters(d, Skip(d, q), 5)))
  }

  lemma SoaFields(d: seq<byte>, room: DnsParse.Room, x: Item)
    requires Inside(d, x) && x.rr.typ == 6 && Parsed(d, x.rr, room).Some?
    ensures SoaFits(d, x.rr.rdp) && Parsed(d, x.rr, room).value == SoaMembers(d, x.rr.rdp)
  {
  }

  lemma SoaCompare(d: seq<byte>, p: nat, q: nat)
    requires SoaFits(d, p) && SoaFits(d, q)
    ensures Signs(Compare(SoaMembers(d, p), SoaMembers(d, q)), SoaFirst(d, p, q), SoaFirst(d, q, p))
  {
    var p1, q1 := Skip(d, p), Skip(d, q);
    var p2, q2 := Skip(d, p1), Skip(d, q1);
    var r, s := Laters(d, p2, 5), Laters(d, q2, 5);
    LatersSign(d, p2, q2, 5, 0);
    var a, b := Then(Text(DnsParse.HostText(d, p1).value), r), Then(Text(DnsParse.HostText(d, q1).value), s);
    NameThen(d, p1, q1, r, s, Later(d, p2, q2, 5), Later(d, q2, p2, 5));
    NameThen(d, p, q, a, b, NameEarlier(d, p1, q1) || (NamesTie(d, p1, q1) && Later(d, p2, q2, 5)),
      NameEarlier(d, q1, p1) || (NamesTie(d, p1, q1) && Later(d, q2, p2, 5)));
  }

  lemma {:induction false} SoaOrder(d: seq<byte>, room: DnsParse.Room, x: Item, y: Item)
    requires Peers(d, room, x, y, 6)
    ensures SoaFits(d, x.rr.rdp) && SoaFits(d, y.rr.rdp)
    ensures Signs(ItemOrder(d, room, x, y), SoaFirst(d, x.rr.rdp, y.rr.rdp), SoaFirst(d, y.rr.rdp, x.rr.rdp))
  {
    PeersCompare(d, room, x, y, 6);
    SoaFields(d, room, x);
    SoaFields(d, room, y);
    SoaCompare(d, x.rr.rdp, y.rr.rdp);
  }

  /** Algorithm, then type, and for SHA-1 then the digest, each time the smaller octet first. */
  ghost predicate KeyFirst(d: seq<byte>, p: nat, q: nat)
    requires KeyFits(d, p) && KeyFits(d, q)
  {
    d[p] < d[q]
    || (d[p] == d[q]
        && (d[p + 1] < d[q + 1] || (d[p + 1] == d[q + 1] == 1 && Smaller(Part(d, p + 2, 20), Part(d, q + 2, 20)))))
  }

  predicate KeyFits(d: seq<byte>, p: nat) {
    p + 2 <= |d| && (d[p + 1] == 1 ==> p + 22 <= |d|)
  }

  /** The octets of a part are those of the whole. */
  lemma {:induction false} OctetsOfPart(d: seq<byte>, p: nat, n: nat, i: nat)
    requires p + n <= |d| && i <= n
    ensures Octets(Part(d, p, n), i, n, End) == Octets(d, p + i, p + n, End)
    decreases n - i
  {
    if i < n {
      OctetsOfPart(d, p, n, i + 1);
    }
  }

  function Digest(d: seq<byte>, p: nat): Fields
    requires KeyFits(d, p)
  {
    if d[p + 1] == 1 then Octets(d, p + 2, p + 22, End) else End
  }

  function KeyMembers(d: seq<byte>, p: nat): Fields
    requires KeyFits(d, p)
  {
    Then(Number(d[p]), Then(Number(d[p + 1]), Digest(d, p)))
  }

  lemma DigestsCompare(d: seq<byte>, p: nat, q: nat)
    requires KeyFits(d, p) && KeyFits(d, q) && d[p + 1] == d[q + 1]
    ensures var sha := d[p + 1] == 1;
            Signs(Compare(Digest(d, p), Digest(d, q)), sha && Smaller(Part(d, p + 2, 20), Part(d, q + 2, 20)),
              sha && Smaller(Part(d, q + 2, 20), Part(d, p + 2, 20)))
  {
    if d[p + 1] == 1 {
      OctetsSign(Part(d, p + 2, 20), Part(d, q + 2, 20), 0);
      OctetsOfPart(d, p + 2, 20, 0);
      OctetsOfPart(d, q + 2, 20, 0);
    }
  }

  lemma KeyCompare(d: seq<byte>, p: nat, q: nat)
    requires KeyFits(d, p) && KeyFits(d, q)
    ensures Signs(Compare(KeyMembers(d, p), KeyMembers(d, q)), KeyFirst(d, p, q), KeyFirst(d, q, p))
  {
    NumberFirst(d[p], d[q], Then(Number(d[p + 1]), Digest(d, p)), Then(Number(d[q + 1]), Digest(d, q)));
    NumberFirst(d[p + 1], d[q + 1], Digest(d, p), Digest(d, q));
    if d[p + 1] == d[q + 1] {
      DigestsCompare(d, p, q);
    }
  }

  lemma KeyFields(d: seq<byte>, room: DnsParse.Room, x: Item)
    requires Inside(d, x) && x.rr.typ == 44 && Parsed(d, x.rr, room).Some?
    ensures KeyFits(d, x.rr.rdp) && Parsed(d, x.rr, room).value == KeyMembers(d, x.rr.rdp)
  {
  }

  lemma {:induction false} KeyOrder(d: seq<byte>, room: DnsParse.Room, x: Item, y: Item)
    requires Peers(d, room, x, y, 44)
    ensures KeyFits(d, x.rr.rdp) && KeyFits(d, y.rr.rdp)
    ensures Signs(ItemOrder(d, room, x, y), KeyFirst(d, x.rr.rdp, y.rr.rdp), KeyFirst(d, y.rr.rdp, x.rr.rdp))
  {
    PeersCompare(d, room, x, y, 44);
    KeyFields(d, room, x);
    KeyFields(d, room, y);
    KeyCompare(d, x.rr.rdp, y.rr.rdp);
  }

  // ---------------------------------------------------------------- the results of an iteration

  /** The results under a filter for type `t`, the `i`-th and a later one. */
  ghost predicate TwoResults(d: seq<byte>, m: Memos, i: Filter, room: DnsParse.Room, t: nat, a: nat, b: nat, x: nat,
                             y: nat) {
    Fresh(d, m, i) && i.typ == t && a < b && x != |d| && y != |d|
    && x == Result(Candidates(d, m, i), Order(d, m, room), |d|, a)
    && y == Result(Candidates(d, m, i), Order(d, m, room), |d|, b)
    && RrParse(d, x).Some? && RrParse(d, y).Some? && Peers(d, room, ItemAt(d, m, x), ItemAt(d, m, y), t)
  }

  lemma LaterIsAbove(d: seq<byte>, m: Memos, i: Filter, room: DnsParse.Room, t: nat, a: nat, b: nat, x: nat, y: nat)
    requires TwoResults(d, m, i, room, t, a, b, x, y) && NamesType(i)
    ensures ItemOrder(d, room, ItemAt(d, m, x), ItemAt(d, m, y)) < 0
  {
    OrderRanks(d, m, i, room);
    NotAtEnd(d, m, i);
    ResultsRise(Candidates(d, m, i), Order(d, m, room), |d|, a, b);
  }

  /** The MX records of one owner come by their preferences. */
  lemma {:induction false} MxInOrder(d: seq<byte>, m: Memos, i: Filter, room: DnsParse.Room, a: nat, b: nat, x: nat,
                                     y: nat)
    requires TwoResults(d, m, i, room, 15, a, b, x, y)
    ensures var p, q := RrParse(d, x).value.rdp, RrParse(d, y).value.rdp;
            p + 2 <= |d| && q + 2 <= |d| && Two(d, p) <= Two(d, q) && BetterMx(d, p, q)
  {
    LaterIsAbove(d, m, i, room, 15, a, b, x, y);
    MxOrder(d, room, ItemAt(d, m, x), ItemAt(d, m, y));
  }

  /** And SRV records by their priorities, with the smaller weight first. */
  lemma {:induction false} SrvInOrder(d: seq<byte>, m: Memos, i: Filter, room: DnsParse.Room, a: nat, b: nat, x: nat,
                                      y: nat)
    requires TwoResults(d, m, i, room, 33, a, b, x, y)
    ensures var p, q := RrParse(d, x).value.rdp, RrParse(d, y).value.rdp;
            p + 6 <= |d| && q + 6 <= |d| && Two(d, p) <= Two(d, q) && BetterSrv(d, p, q)
  {
    LaterIsAbove(d, m, i, room, 33, a, b, x, y);
    SrvOrder(d, room, ItemAt(d, m, x), ItemAt(d, m, y));
  }
}
