/**
 Records in the order of their contents: `dns_rr_cmp`, and the iteration under `dns_rr_i_order`, which is by
 section and type but compares records of different types by their offsets.
 */
module DnsOrder {
  import opened Wrappers
  import opened Bytes
  import opened DnsWalk
  import opened DnsRead
  import opened DnsDict
  import opened DnsSections
  import opened DnsRecords
  import DnsParse
  import opened DnsSelect
  import opened DnsGrep

  const QUESTIONS: nat := 1
  const T_SOA: nat := 6
  const T_OPT: nat := 41
  const T_SSHFP: nat := 44
  const SHA1: nat := 1

  /** The types whose data is compared; of TXT, SPF and types unknown to the table any two compare as -1. */
  const COMPARED: set<nat> := {T_A, T_NS, T_CNAME, T_SOA, T_PTR, T_MX, T_AAAA, T_SRV, T_OPT, T_SSHFP}

  // ---------------------------------------------------------------- strcasecmp

  function CharAt(s: seq<byte>, i: nat): byte {
    if i < |s| then Lower(s[i]) else 0
  }

  function CaseFrom(a: seq<byte>, b: seq<byte>, i: nat): int
    decreases |a| - i
  {
    if CharAt(a, i) != CharAt(b, i) then CharAt(a, i) as int - CharAt(b, i) as int
    else if CharAt(a, i) == 0 then 0
    else CaseFrom(a, b, i + 1)
  }

  lemma {:induction false} CaseTurns(a: seq<byte>, b: seq<byte>, i: nat)
    ensures CaseFrom(b, a, i) == -CaseFrom(a, b, i)
    decreases |a| - i
  {
    if CharAt(a, i) == CharAt(b, i) != 0 {
      CaseTurns(a, b, i + 1);
    }
  }

  lemma {:induction false} CaseChains(a: seq<byte>, b: seq<byte>, c: seq<byte>, i: nat)
    requires CaseFrom(a, b, i) <= 0 && CaseFrom(b, c, i) <= 0
    ensures CaseFrom(a, c, i) <= 0
    decreases |a| - i
  {
    if CharAt(a, i) == CharAt(b, i) == CharAt(c, i) != 0 {
      CaseChains(a, b, c, i + 1);
    }
  }

  lemma {:induction false} SameFrom(a: seq<byte>, b: seq<byte>, i: nat)
    requires i <= |a| && i <= |b|
    ensures CaseFrom(a, b, i) == 0 <==> CaseEq(a[i..], b[i..])
    decreases |a| - i
  {
    HeadLower(a[i..]);
    HeadLower(b[i..]);
    if i < |a| && i < |b| && a[i] != 0 && b[i] != 0 {
      SameFrom(a, b, i + 1);
      assert a[i..][1..] == a[i + 1..] && b[i..][1..] == b[i + 1..];
      ConsEqual(Lower(a[i]), LowerAll(CStr(a[i + 1..])), Lower(b[i]), LowerAll(CStr(b[i + 1..])));
    }
  }

  lemma HeadLower(s: seq<byte>)
    ensures LowerAll(CStr(s)) == if s == [] || s[0] == 0 then [] else [Lower(s[0])] + LowerAll(CStr(s[1..]))
  {
  }

  lemma ConsEqual(x: byte, s: seq<byte>, y: byte, t: seq<byte>)
    ensures [x] + s == [y] + t <==> x == y && s == t
  {
    if [x] + s == [y] + t {
      assert ([x] + s)[0] == ([y] + t)[0] && ([x] + s)[1..] == ([y] + t)[1..];
    }
  }

  // ---------------------------------------------------------------- fields

  /** What a parsed structure holds, in the order in which its members are compared. */
  datatype Field = Number(n: int) | Text(text: seq<byte>)
  datatype Fields = End | Then(first: Field, rest: Fields)

  function FieldCompare(a: Field, b: Field): int {
    if a.Number? && b.Number? then a.n - b.n
    else if a.Text? && b.Text? then CaseFrom(a.text, b.text, 0)
    else if a.Number? then -1
    else 1
  }

  /** Member by member, the first difference decides. */
  function Compare(a: Fields, b: Fields): int {
    if a == End || b == End then (if a == b then 0 else if a == End then -1 else 1)
    else if FieldCompare(a.first, b.first) != 0 then FieldCompare(a.first, b.first)
    else Compare(a.rest, b.rest)
  }

  lemma FieldTurns(a: Field, b: Field)
    ensures FieldCompare(b, a) == -FieldCompare(a, b)
  {
    if a.Text? && b.Text? {
      CaseTurns(a.text, b.text, 0);
    }
  }

  lemma FieldChains(a: Field, b: Field, c: Field)
    requires FieldCompare(a, b) <= 0 && FieldCompare(b, c) <= 0
    ensures FieldCompare(a, c) <= 0
  {
    if a.Text? && b.Text? && c.Text? {
      CaseChains(a.text, b.text, c.text, 0);
    }
  }

  lemma {:induction false} CompareTurns(a: Fields, b: Fields)
    ensures Compare(b, a) == -Compare(a, b)
  {
    if a.Then? && b.Then? {
      FieldTurns(a.first, b.first);
      CompareTurns(a.rest, b.rest);
    }
  }

  lemma {:induction false} CompareChains(a: Fields, b: Fields, c: Fields)
    requires Compare(a, b) <= 0 && Compare(b, c) <= 0
    ensures Compare(a, c) <= 0
  {
    if a.Then? && b.Then? && c.Then? {
      FieldChains(a.first, b.first, c.first);
      FieldTurns(a.first, b.first);
      FieldTurns(b.first, c.first);
      FieldTurns(a.first, c.first);
      if FieldCompare(a.first, c.first) == 0 {
        FieldChains(c.first, a.first, b.first);
        FieldChains(b.first, c.first, a.first);
        CompareChains(a.rest, b.rest, c.rest);
      }
    }
  }

  // ---------------------------------------------------------------- record data

  function Be32(d: seq<byte>, p: nat): nat
    requires p + 4 <= |d|
  {
    Read16(d, p) * 0x1_0000 + Read16(d, p + 2)
  }

  /** The octets at [p, q), one number each, and then `rest`. */
  function Octets(d: seq<byte>, p: nat, q: nat, rest: Fields): Fields
    requires p <= q <= |d|
    decreases q - p
  {
    if p == q then rest else Then(Number(d[p]), Octets(d, p + 1, q, rest))
  }

  /** The `n` numbers at `p`; later ones sort first. */
  function Laters(d: seq<byte>, p: nat, n: nat): Fields
    requires p + 4 * n <= |d|
    decreases n
  {
    if n == 0 then End else Then(Number(-(Be32(d, p) as int)), Laters(d, p + 4, n - 1))
  }

  /** `dns_soa_parse`: two names, then five numbers; nothing is checked against the length of the data. */
  function ParseSoa(d: seq<byte>, p: nat): Option<Fields> {
    var q := Skip(d, p);
    var r := Skip(d, q);
    var mname, rname := DnsParse.HostText(d, p), DnsParse.HostText(d, q);
    if p >= |d| || mname.None? || q >= |d| || rname.None? || r >= |d| || |d| < r + 20 then None
    else Some(Then(Text(mname.value), Then(Text(rname.value), Laters(d, r, 5))))
  }

  /** `dns_sshfp_parse`; only SHA-1 digests are kept and compared. */
  function ParseSshfp(d: seq<byte>, p: nat, len: nat): Option<Fields>
    requires p + len <= |d|
  {
    if len < 2 || (d[p + 1] == SHA1 && len < 22) then None
    else
      var digest := if d[p + 1] == SHA1 then Octets(d, p + 2, p + 22, End) else End;
      Some(Then(Number(d[p]), Then(Number(d[p + 1]), digest)))
  }

  function FieldsOf(rd: DnsRecords.RData): Fields {
    match rd
    case A(addr) => if |addr| == 4 then Then(Number(Be32(addr, 0)), End) else End
    case Aaaa(addr) => Octets(addr, 0, |addr|, End)
    case Host(name) => Then(Text(name), End)
    case Mx(preference, exchange) => Then(Number(preference), Then(Text(exchange), End))
    case Srv(priority, weight, port, target) =>
      Then(Number(priority), Then(Number(weight), Then(Number(port), Then(Text(target), End))))
    case _ => End
  }

  /** `dns_any_parse`, as the members that are compared. */
  function Parsed(d: seq<byte>, rr: Rr, room: DnsParse.Room): Option<Fields>
    requires rr.rdp + rr.rdlen <= |d|
  {
    if rr.typ == T_SOA then ParseSoa(d, rr.rdp)
    else if rr.typ == T_OPT then Some(End)
    else if rr.typ == T_SSHFP then ParseSshfp(d, rr.rdp, rr.rdlen)
    else
      var rd := DnsParse.ParseData(d, rr, room);
      if rd.None? then None else Some(FieldsOf(rd.value))
  }

  /** `dns_any_cmp`, for data of one type. */
  function AnyCompare(t: nat, a: Fields, b: Fields): int {
    if t in COMPARED then Compare(a, b) else -1
  }

  // ---------------------------------------------------------------- records

  /** A parsed record with its section, whose data lies in `d`. */
  datatype Item = Item(rr: Rr, section: nat)

  predicate Inside(d: seq<byte>, x: Item) {
    x.rr.rdp + x.rr.rdlen <= |d|
  }

  /** The last part of `dns_rr_cmp`, for records of one type, class and name. */
  function DataCompare(d: seq<byte>, room: DnsParse.Room, x: Item, y: Item): int
    requires Inside(d, x) && Inside(d, y)
  {
    if x.section == QUESTIONS || y.section == QUESTIONS then
      if x.section == y.section then 0 else if x.section == QUESTIONS then -1 else 1
    else
      var any0, any1 := Parsed(d, x.rr, room), Parsed(d, y.rr, room);
      if any0.None? then -1
      else if any1.None? then 1
      else AnyCompare(x.rr.typ, any0.value, any1.value)
  }

  /** `dns_rr_cmp`, within one packet; `room` is what the buffers for the data happen to hold. */
  function RecordCompare(d: seq<byte>, room: DnsParse.Room, x: Item, y: Item): int
    requires Inside(d, x) && Inside(d, y)
  {
    if x.rr.typ != y.rr.typ then x.rr.typ - y.rr.typ
    else if x.rr.cls != y.rr.cls then x.rr.cls - y.rr.cls
    else
      var host0, host1 := DnsParse.HostText(d, x.rr.dnp), DnsParse.HostText(d, y.rr.dnp);
      if host0.None? then -1
      else if host1.None? then 1
      else
        var c := CaseFrom(host0.value, host1.value, 0);
        if c != 0 then c else DataCompare(d, room, x, y)
  }

  /** `dns_rr_i_order`. */
  function ItemOrder(d: seq<byte>, room: DnsParse.Room, x: Item, y: Item): int
    requires Inside(d, x) && Inside(d, y)
  {
    if x.section != y.section then x.section - y.section
    else if x.rr.typ != y.rr.typ then x.rr.dnp - y.rr.dnp
    else RecordCompare(d, room, x, y)
  }

  function DataRank(d: seq<byte>, room: DnsParse.Room, x: Item): Fields
    requires Inside(d, x)
  {
    var data := Parsed(d, x.rr, room);
    if x.section == QUESTIONS || data.None? then End
    else Then(Number(0), if x.rr.typ in COMPARED then data.value else End)
  }

  function HostRank(d: seq<byte>, room: DnsParse.Room, x: Item): Fields
    requires Inside(d, x)
  {
    var host := DnsParse.HostText(d, x.rr.dnp);
    if host.None? then End else Then(Text(host.value), DataRank(d, room, x))
  }

  /**
   The rank of a record among those of its type: section, class, name and data; names that do not expand come
   before all others, and data that does not parse before all other data.
   */
  function Rank(d: seq<byte>, room: DnsParse.Room, x: Item): Fields
    requires Inside(d, x)
  {
    Then(Number(x.section), Then(Number(x.rr.cls), HostRank(d, room, x)))
  }

  /** The record's name expands and its data, but for a question, parses and is compared. */
  predicate Legible(d: seq<byte>, room: DnsParse.Room, x: Item)
    requires Inside(d, x)
  {
    DnsParse.HostText(d, x.rr.dnp).Some?
    && (x.section == QUESTIONS || (x.rr.typ in COMPARED && Parsed(d, x.rr, room).Some?))
  }

  /** A comparison by rank: equal ranks compare as 0 if they are legible and else as less, both ways. */
  predicate ByRank(o: int, c: int, legible: bool) {
    (o > 0 <==> c > 0) && (c < 0 ==> o < 0) && (c == 0 ==> o == if legible then 0 else -1)
  }

  lemma DataByRank(d: seq<byte>, room: DnsParse.Room, x: Item, y: Item)
    requires Inside(d, x) && Inside(d, y) && x.rr.typ == y.rr.typ && x.section == y.section
    ensures ByRank(DataCompare(d, room, x, y), Compare(DataRank(d, room, x), DataRank(d, room, y)),
              x.section == QUESTIONS || (x.rr.typ in COMPARED && Parsed(d, x.rr, room).Some?))
  {
    var a, b := DataRank(d, room, x), DataRank(d, room, y);
    if a.Then? && b.Then? {
      assert Compare(a, b) == Compare(a.rest, b.rest);
      assert a.rest == End && b.rest == End ==> Compare(a.rest, b.rest) == 0;
    }
  }

  lemma HostByRank(d: seq<byte>, room: DnsParse.Room, x: Item, y: Item)
    requires Inside(d, x) && Inside(d, y) && x.rr.typ == y.rr.typ && x.section == y.section && x.rr.cls == y.rr.cls
    ensures ByRank(RecordCompare(d, room, x, y), Compare(HostRank(d, room, x), HostRank(d, room, y)),
                   Legible(d, room, x))
  {
    DataByRank(d, room, x, y);
  }

  /** Within a type, `dns_rr_i_order` compares ranks. */
  lemma {:induction false} OrderByRank(d: seq<byte>, room: DnsParse.Room, x: Item, y: Item)
    requires Inside(d, x) && Inside(d, y) && x.rr.typ == y.rr.typ
    ensures ByRank(ItemOrder(d, room, x, y), Compare(Rank(d, room, x), Rank(d, room, y)), Legible(d, room, x))
  {
    var a, b := Rank(d, room, x), Rank(d, room, y);
    if x.section == y.section {
      assert Compare(a, b) == Compare(a.rest, b.rest);
      if x.rr.cls == y.rr.cls {
        assert Compare(a.rest, b.rest) == Compare(a.rest.rest, b.rest.rest);
        HostByRank(d, room, x, y);
      }
    }
  }

  // ---------------------------------------------------------------- iteration for one type

  /** The record at `rp`, with its section. */
  function ItemAt(d: seq<byte>, m: Memos, rp: nat): (x: Item)
    requires HEADER <= |d| && RrParse(d, rp).Some?
    ensures Inside(d, x) && x.rr.dnp == rp
  {
    Item(RrParse(d, rp).value, Section(d, m, rp))
  }

  /** `dns_rr_i_order`, on the offsets of records that parse. */
  function Order(d: seq<byte>, m: Memos, room: DnsParse.Room): Sort
    requires HEADER <= |d|
  {
    (a: nat, b: nat) =>
      if RrParse(d, a).None? || RrParse(d, b).None? then 0 else ItemOrder(d, room, ItemAt(d, m, a), ItemAt(d, m, b))
  }

  /** The records at `x` and `y` parse and have one rank. */
  predicate SameRank(d: seq<byte>, m: Memos, room: DnsParse.Room, x: nat, y: nat) {
    HEADER <= |d| && RrParse(d, x).Some? && RrParse(d, y).Some?
    && Compare(Rank(d, room, ItemAt(d, m, x)), Rank(d, room, ItemAt(d, m, y))) == 0
  }

  /** The filter names one type. */
  predicate NamesType(i: Filter) {
    i.typ != 0 && i.typ != 255
  }

  lemma CandidateHasType(d: seq<byte>, m: Memos, i: Filter, x: nat)
    requires HEADER <= |d| && NamesType(i) && Has(Candidates(d, m, i), x)
    ensures RrParse(d, x).Some? && RrParse(d, x).value.typ == i.typ
  {
    CandidateIs(d, m, i, x);
  }

  lemma OrderOfCandidates(d: seq<byte>, m: Memos, i: Filter, room: DnsParse.Room, x: nat, y: nat)
    requires HEADER <= |d| && NamesType(i) && Has(Candidates(d, m, i), x) && Has(Candidates(d, m, i), y)
    ensures RrParse(d, x).Some? && RrParse(d, y).Some?
    ensures ByRank(Order(d, m, room)(x, y), Compare(Rank(d, room, ItemAt(d, m, x)), Rank(d, room, ItemAt(d, m, y))),
              Legible(d, room, ItemAt(d, m, x)))
  {
    CandidateHasType(d, m, i, x);
    CandidateHasType(d, m, i, y);
    OrderByRank(d, room, ItemAt(d, m, x), ItemAt(d, m, y));
  }

  /** For a filter that names a type, `dns_rr_i_order` ranks the candidates of every packet. */
  lemma OrderRanks(d: seq<byte>, m: Memos, i: Filter, room: DnsParse.Room)
    requires HEADER <= |d| && NamesType(i)
    ensures Ranked(Candidates(d, m, i), Order(d, m, room))
  {
    var l, sort := Candidates(d, m, i), Order(d, m, room);
    forall x, y | Has(l, x) && Has(l, y) && sort(x, y) > 0 ensures sort(y, x) < 0 {
      OrderOfCandidates(d, m, i, room, x, y);
      OrderOfCandidates(d, m, i, room, y, x);
      CompareTurns(Rank(d, room, ItemAt(d, m, x)), Rank(d, room, ItemAt(d, m, y)));
    }
    forall x, y, z | Has(l, x) && Has(l, y) && Has(l, z) && sort(x, y) <= 0 && sort(y, z) <= 0 ensures sort(x, z) <= 0 {
      OrderOfCandidates(d, m, i, room, x, y);
      OrderOfCandidates(d, m, i, room, y, z);
      OrderOfCandidates(d, m, i, room, x, z);
      CompareChains(Rank(d, room, ItemAt(d, m, x)), Rank(d, room, ItemAt(d, m, y)), Rank(d, room, ItemAt(d, m, z)));
    }
  }

  lemma TiesAreRanks(d: seq<byte>, m: Memos, i: Filter, room: DnsParse.Room, x: nat, y: nat)
    requires HEADER <= |d| && NamesType(i) && Has(Candidates(d, m, i), x) && Has(Candidates(d, m, i), y)
    ensures RrParse(d, x).Some?
    ensures Ties(x, y, Order(d, m, room)) <==> SameRank(d, m, room, x, y)
    ensures SameRank(d, m, room, x, y) ==> Order(d, m, room)(x, y)
                                           == if Legible(d, room, ItemAt(d, m, x)) then 0 else -1
  {
    OrderOfCandidates(d, m, i, room, x, y);
    OrderOfCandidates(d, m, i, room, y, x);
    CompareTurns(Rank(d, room, ItemAt(d, m, x)), Rank(d, room, ItemAt(d, m, y)));
  }

  lemma RankIsUniform(d: seq<byte>, m: Memos, i: Filter, room: DnsParse.Room, y: nat)
    requires HEADER <= |d| && NamesType(i) && Has(Candidates(d, m, i), y) && RrParse(d, y).Some?
    ensures Uniform(Tied(Candidates(d, m, i), y, Order(d, m, room)), Order(d, m, room),
                    Legible(d, room, ItemAt(d, m, y)))
  {
    var l, sort := Candidates(d, m, i), Order(d, m, room);
    var t := Tied(l, y, sort);
    forall x, z | Has(t, x) && Has(t, z)
      ensures if Legible(d, room, ItemAt(d, m, y)) then sort(x, z) == 0 else sort(x, z) < 0
    {
      TiedHas(l, y, sort, x);
      TiedHas(l, y, sort, z);
      OrderRanks(d, m, i, room);
      assert Ties(x, z, sort) by {
        assert sort(x, y) <= 0 && sort(y, z) <= 0 && sort(z, y) <= 0 && sort(y, x) <= 0;
      }
      TiesAreRanks(d, m, i, room, x, z);
      TiesAreRanks(d, m, i, room, x, y);
      RankDecidesLegible(d, m, i, room, x, y);
    }
  }

  /** Records of one rank are all legible or all not: `x` compares with `y` and with itself alike. */
  lemma RankDecidesLegible(d: seq<byte>, m: Memos, i: Filter, room: DnsParse.Room, x: nat, y: nat)
    requires HEADER <= |d| && NamesType(i) && Has(Candidates(d, m, i), x) && Has(Candidates(d, m, i), y)
    requires SameRank(d, m, room, x, y)
    ensures Legible(d, room, ItemAt(d, m, x)) <==> Legible(d, room, ItemAt(d, m, y))
  {
    CandidateHasType(d, m, i, x);
    CandidateHasType(d, m, i, y);
    var a, b := ItemAt(d, m, x), ItemAt(d, m, y);
    var r, s := Rank(d, room, a), Rank(d, room, b);
    assert Compare(r.rest, s.rest) == 0 && a.section == b.section;
    assert Compare(r.rest.rest, s.rest.rest) == 0;
    assert Compare(HostRank(d, room, a), HostRank(d, room, b)) == 0;
    if HostRank(d, room, a).Then? {
      assert Compare(DataRank(d, room, a), DataRank(d, room, b)) == 0;
    }
  }

  /** Of the candidates of its rank, the record at `x` is the first if it is legible, and the last if it is not. */
  ghost predicate Leads(d: seq<byte>, m: Memos, i: Filter, room: DnsParse.Room, x: nat)
    requires HEADER <= |d| && RrParse(d, x).Some?
  {
    forall z: nat {:trigger SameRank(d, m, room, x, z)} :: Has(Candidates(d, m, i), z) && SameRank(d, m, room, x, z) ==>
      if Legible(d, room, ItemAt(d, m, x)) then x <= z else z <= x
  }

  lemma ChosenLeads(d: seq<byte>, m: Memos, i: Filter, room: DnsParse.Room, x: nat)
    requires HEADER <= |d| && NamesType(i) && Has(Candidates(d, m, i), x) && RrParse(d, x).Some?
    requires Ranked(Candidates(d, m, i), Order(d, m, room))
    ensures Chosen(Candidates(d, m, i), x, Order(d, m, room)) == x <==> Leads(d, m, i, room, x)
  {
    var l, sort := Candidates(d, m, i), Order(d, m, room);
    var legible, c := Legible(d, room, ItemAt(d, m, x)), Chosen(l, x, sort);
    CandidatesAscend(d, m, i);
    RankIsUniform(d, m, i, room, x);
    ChosenTies(l, sort, x);
    TiesAreRanks(d, m, i, room, x, c);
    ChosenIs(l, sort, x, legible, x);
    forall z | Has(l, z) && SameRank(d, m, room, x, z) ensures if legible then c <= z else z <= c {
      TiesAreRanks(d, m, i, room, x, z);
      ChosenIs(l, sort, x, legible, z);
    }
    if Leads(d, m, i, room, x) {
      assert SameRank(d, m, room, x, c);
    }
  }

  /**
   Iteration under `dns_rr_i_order`, for any packet and a filter that names a type: the results rise
   strictly and stop, and of all matching records of one rank exactly one comes.  It is the first of
   them in the packet if they are legible, else (as always for TXT, SPF and unknown types) the last.
   */
  lemma {:induction false} OrderVisits(d: seq<byte>, m: Memos, i: Filter, room: DnsParse.Room, k: nat)
    requires Fresh(d, m, i) && NamesType(i)
    ensures Ranked(Candidates(d, m, i), Order(d, m, room)) && Stops(Candidates(d, m, i), Order(d, m, room), |d|)
    ensures Rising(Visit(Candidates(d, m, i), Order(d, m, room)), Order(d, m, room))
    ensures var l, sort, rp := Candidates(d, m, i), Order(d, m, room), Boundary(Skipper(d), |d|, k);
            rp < |d| ==> (Has(Visit(l, sort), rp) <==> Matches(d, m, i, rp) && Leads(d, m, i, room, rp))
                         && (Matches(d, m, i, rp) ==> Has(Visit(l, sort), Chosen(l, rp, sort))
                                                      && SameRank(d, m, room, Chosen(l, rp, sort), rp))
  {
    var l, sort, rp := Candidates(d, m, i), Order(d, m, room), Boundary(Skipper(d), |d|, k);
    OrderRanks(d, m, i, room);
    GrepVisits(d, m, i, sort, k);
    if rp < |d| && Matches(d, m, i, rp) {
      MatchIsCandidate(d, m, i, k);
      ChosenLeads(d, m, i, room, rp);
      ChosenTies(l, sort, rp);
      TiesAreRanks(d, m, i, room, Chosen(l, rp, sort), rp);
    }
  }

  /**
   TXT or SPF records of one section (but the question), class and owner, whose names expand and whose data parses.
   */
  predicate SameTexts(d: seq<byte>, room: DnsParse.Room, a: Item, b: Item)
    requires Inside(d, a) && Inside(d, b)
  {
    a.rr.typ == b.rr.typ && a.rr.typ in {16, 99} && a.section == b.section != QUESTIONS && a.rr.cls == b.rr.cls
    && Parsed(d, a.rr, room).Some? && Parsed(d, b.rr, room).Some?
    && DnsParse.HostText(d, a.rr.dnp).Some? && DnsParse.HostText(d, b.rr.dnp).Some?
    && CaseEq(DnsParse.HostText(d, a.rr.dnp).value, DnsParse.HostText(d, b.rr.dnp).value)
  }

  lemma TextsRank(d: seq<byte>, room: DnsParse.Room, a: Item, b: Item)
    requires Inside(d, a) && Inside(d, b) && SameTexts(d, room, a, b)
    ensures Compare(Rank(d, room, a), Rank(d, room, b)) == 0 && !Legible(d, room, a)
  {
    var host0, host1 := DnsParse.HostText(d, a.rr.dnp).value, DnsParse.HostText(d, b.rr.dnp).value;
    SameFrom(host0, host1, 0);
    WholeFrom(host0);
    WholeFrom(host1);
    assert DataRank(d, room, a) == DataRank(d, room, b) == Then(Number(0), End);
    SameHosts(HostRank(d, room, a), HostRank(d, room, b));
  }

  /**
   Of two TXT or SPF records of one section (but the question), class and owner, iteration under `dns_rr_i_order`
   never gives the earlier one, as `dns_txt_cmp` compares any two as less.
   */
  lemma {:induction false} EarlierTextsLost(d: seq<byte>, m: Memos, i: Filter, room: DnsParse.Room, x: nat, z: nat)
    requires Fresh(d, m, i) && NamesType(i) && x < z && Has(Candidates(d, m, i), x) && Has(Candidates(d, m, i), z)
    requires RrParse(d, x).Some? && RrParse(d, z).Some? && SameTexts(d, room, ItemAt(d, m, x), ItemAt(d, m, z))
    ensures Ranked(Candidates(d, m, i), Order(d, m, room)) && !Has(Visit(Candidates(d, m, i), Order(d, m, room)), x)
  {
    OrderRanks(d, m, i, room);
    TextsRank(d, room, ItemAt(d, m, x), ItemAt(d, m, z));
    ChosenLeads(d, m, i, room, x);
    assert SameRank(d, m, room, x, z);
    VisitsAll(Candidates(d, m, i), Order(d, m, room), x);
  }

  lemma WholeFrom(s: seq<byte>)
    ensures s[0..] == s
  {
  }

  lemma SameHosts(a: Fields, b: Fields)
    requires a.Then? && b.Then? && a.first.Text? && b.first.Text? && CaseFrom(a.first.text, b.first.text, 0) == 0
    requires a.rest == b.rest == Then(Number(0), End)
    ensures Compare(a, b) == 0
  {
    assert Compare(a.rest, b.rest) == Compare(End, End);
  }

  // ---------------------------------------------------------------- iteration for several types

  /** The one label `l`, the type and the class, and for a record of `w` = 13 octets no time to live and no data. */
  predicate StandsAt(d: seq<byte>, p: nat, w: nat, l: byte, t: nat, cls: nat) {
    (w == 7 || w == 13) && p + w <= |d| && d[p] == 1 && d[p + 1] == l && d[p + 2] == 0
    && Read16(d, p + 3) == t && Read16(d, p + 5) == cls && (w == 13 ==> Read16(d, p + 11) == 0)
  }

  function ThreeIf(b: bool): byte {
    if b then 3 else 0
  }

  /** A packet of three records: b. of type A, b. of type NS, and a. of type A, as questions or in section `s`. */
  predicate Round(d: seq<byte>, s: nat, cls: nat) {
    var w := if s == 1 then 7 else 13;
    s in {1, 2, 4, 8} && |d| == HEADER + 3 * w
    && Count(d, 0) == ThreeIf(s == 1) && Count(d, 1) == ThreeIf(s == 2)
    && Count(d, 2) == ThreeIf(s == 4) && Count(d, 3) == ThreeIf(s == 8)
    && StandsAt(d, HEADER, w, 98, T_A, cls) && StandsAt(d, HEADER + w, w, 98, T_NS, cls)
    && StandsAt(d, HEADER + 2 * w, w, 97, T_A, cls)
  }

  function OneRecord(w: nat, l: byte, t: byte, hi: byte, lo: byte): seq<byte> {
    [1, l, 0, 0, t, hi, lo] + if w == 13 then [0, 0, 0, 0, 0, 0] else []
  }

  lemma RecordStands(a: seq<byte>, w: nat, l: byte, t: byte, hi: byte, lo: byte, b: seq<byte>)
    requires w == 7 || w == 13
    ensures StandsAt(a + OneRecord(w, l, t, hi, lo) + b, |a|, w, l, t, hi as int * 256 + lo as int)
  {
    var r := OneRecord(w, l, t, hi, lo);
    var d := a + r + b;
    assert forall k: nat :: k < w ==> d[|a| + k] == r[k];
    assert r[0] == 1 && r[1] == l && r[2] == 0 && r[3] == 0 && r[4] == t && r[5] == hi && r[6] == lo;
    assert w == 13 ==> r[11] == 0 && r[12] == 0;
  }

  function RoundHeader(s: nat): (h: seq<byte>)
    ensures |h| == 12
  {
    [0, 0, 0, 0, 0, ThreeIf(s == 1), 0, ThreeIf(s == 2), 0, ThreeIf(s == 4), 0, ThreeIf(s == 8)]
  }

  function RoundPacket(s: nat, cls: nat): seq<byte>
    requires cls < 65536
  {
    var w, hi, lo := if s == 1 then 7 else 13, cls / 256, cls % 256;
    RoundHeader(s) + OneRecord(w, 98, 1, hi, lo) + OneRecord(w, 98, 2, hi, lo) + OneRecord(w, 97, 1, hi, lo)
  }

  lemma FourParts(h: seq<byte>, a: seq<byte>, b: seq<byte>, c: seq<byte>)
    ensures h + a + b + c == h + a + (b + c) == h + a + b + c + [] && (h + a + b + c)[..|h|] == h
  {
  }

  lemma RoundPacketIsRound(s: nat, cls: nat)
    requires s in {1, 2, 4, 8} && cls < 65536
    ensures Round(RoundPacket(s, cls), s, cls)
  {
    var d, h, w, hi, lo := RoundPacket(s, cls), RoundHeader(s), if s == 1 then 7 else 13, cls / 256, cls % 256;
    RecordsOfRound(d, h, w, hi, lo, OneRecord(w, 98, 1, hi, lo), OneRecord(w, 98, 2, hi, lo),
                   OneRecord(w, 97, 1, hi, lo));
    HeaderCounts(d, h, ThreeIf(s == 1), ThreeIf(s == 2), ThreeIf(s == 4), ThreeIf(s == 8));
  }

  lemma RecordsOfRound(d: seq<byte>, h: seq<byte>, w: nat, hi: byte, lo: byte, a: seq<byte>, b: seq<byte>, c: seq<byte>)
    requires (w == 7 || w == 13) && |h| == 12 && d == h + a + b + c
    requires a == OneRecord(w, 98, 1, hi, lo) && b == OneRecord(w, 98, 2, hi, lo) && c == OneRecord(w, 97, 1, hi, lo)
    ensures |d| == 12 + 3 * w && d[..12] == h
    ensures var cls := hi as int * 256 + lo as int;
            StandsAt(d, 12, w, 98, T_A, cls) && StandsAt(d, 12 + w, w, 98, T_NS, cls)
              && StandsAt(d, 12 + 2 * w, w, 97, T_A, cls)
  {
    FourParts(h, a, b, c);
    RecordStands(h, w, 98, 1, hi, lo, b + c);
    RecordStands(h + a, w, 98, 2, hi, lo, c);
    RecordStands(h + a + b, w, 97, 1, hi, lo, []);
  }

  lemma HeaderCounts(d: seq<byte>, h: seq<byte>, q: byte, an: byte, ns: byte, ar: byte)
    requires |d| >= 12 && h == [0, 0, 0, 0, 0, q, 0, an, 0, ns, 0, ar] && d[..12] == h
    ensures Count(d, 0) == q && Count(d, 1) == an && Count(d, 2) == ns && Count(d, 3) == ar
  {
    assert forall k :: 0 <= k < 12 ==> d[k] == h[k];
    assert h[4] == 0 && h[5] == q && h[6] == 0 && h[7] == an && h[8] == 0 && h[9] == ns && h[10] == 0 && h[11] == ar;
  }

  lemma SkipsName(d: seq<byte>, p: nat, w: nat, l: byte, t: nat, cls: nat)
    requires StandsAt(d, p, w, l, t, cls)
    ensures Skip(d, p) == p + 3
  {
    assert Skip(d, p + 2) == p + 3;
  }

  lemma RoundQuestions(d: seq<byte>, s: nat, cls: nat)
    requires Round(d, s, cls)
    ensures QEnd(d) == if s == 1 then |d| else HEADER
  {
    if s == 1 {
      SkipsName(d, 12, 7, 98, T_A, cls);
      SkipsName(d, 19, 7, 98, T_NS, cls);
      SkipsName(d, 26, 7, 97, T_A, cls);
      assert QEndFrom(d, 33, 0) == QEndFrom(d, 26, 1) == QEndFrom(d, 19, 2) == QEndFrom(d, 12, 3);
    }
  }

  /** The `k`-th record of the packet. */
  predicate Record(d: seq<byte>, s: nat, cls: nat, k: nat, p: nat, l: byte, t: nat) {
    var w := if s == 1 then 7 else 13;
    k < 3 && p == HEADER + k * w && StandsAt(d, p, w, l, t, cls)
  }

  lemma ParsesRound(d: seq<byte>, s: nat, cls: nat, k: nat, p: nat, l: byte, t: nat)
    requires Round(d, s, cls) && Record(d, s, cls, k, p, l, t)
    ensures Skipper(d)(p) == p + if s == 1 then 7 else 13
    ensures RrParse(d, p).Some? && RrParse(d, p).value.typ == t && RrParse(d, p).value.cls == cls
  {
    SkipsName(d, p, if s == 1 then 7 else 13, l, t, cls);
    RoundQuestions(d, s, cls);
  }

  lemma NamesRound(d: seq<byte>, p: nat, w: nat, l: byte, t: nat, cls: nat)
    requires StandsAt(d, p, w, l, t, cls)
    ensures DnsParse.HostText(d, p) == Some([l, DOT])
  {
    var v := View(d, 0, MAX_POINTERS);
    assert Walk(v, p + 2, |d|, 0) == Name(Labels.Nil, true);
    assert d[p + 1..p + 1 + 1] == [l];
    assert Walk(v, p, |d|, 0) == DnsWalk.Cons([l], Walk(v, p + 2, |d|, 0));
    assert Emit([], More([l], Labels.Nil)) == Emit([] + ([l] + [DOT]), Labels.Nil) == [l, DOT];
  }

  lemma BoundaryOfRound(d: seq<byte>, s: nat, cls: nat, k: nat)
    requires Round(d, s, cls) && k < 3
    ensures Boundary(Skipper(d), |d|, k) == HEADER + k * if s == 1 then 7 else 13
  {
    var w := if s == 1 then 7 else 13;
    ParsesRound(d, s, cls, 0, HEADER, 98, T_A);
    ParsesRound(d, s, cls, 1, HEADER + w, 98, T_NS);
    var f := Skipper(d);
    assert Boundary(f, |d|, 0) == HEADER;
    assert Boundary(f, |d|, 1) == HEADER + w;
    assert Boundary(f, |d|, 2) == HEADER + 2 * w;
  }

  lemma SectionOfRound(d: seq<byte>, m: Memos, s: nat, cls: nat, k: nat, p: nat, l: byte, t: nat)
    requires Round(d, s, cls) && Record(d, s, cls, k, p, l, t) && (m == UNSTUDIED || m == Study(d))
    ensures Section(d, m, p) == s
  {
    BoundaryOfRound(d, s, cls, k);
    MemoAgreesWithRecount(d, k);
  }

  /** A filter for all types that asks for neither name nor data; `s` is a section it asks for. */
  ghost predicate AsksAll(i: Filter, s: nat, cls: nat) {
    !NamesType(i) && (forall rp: nat :: i.more(rp)) && (i.section == 0 || Selected(i.section, s))
    && (i.cls == 0 || i.cls == ANY || i.cls == cls)
  }

  lemma MatchesRound(d: seq<byte>, m: Memos, i: Filter, s: nat, cls: nat, k: nat, p: nat, l: byte, t: nat)
    requires Round(d, s, cls) && Record(d, s, cls, k, p, l, t) && (m == UNSTUDIED || m == Study(d))
             && AsksAll(i, s, cls)
    ensures Matches(d, m, i, p)
  {
    ParsesRound(d, s, cls, k, p, l, t);
    SectionOfRound(d, m, s, cls, k, p, l, t);
  }

  lemma RoundCandidates(d: seq<byte>, m: Memos, i: Filter, s: nat, cls: nat)
    requires Round(d, s, cls) && (m == UNSTUDIED || m == Study(d)) && AsksAll(i, s, cls)
    ensures var w := if s == 1 then 7 else 13;
            Candidates(d, m, i) == List.Cons(HEADER, List.Cons(HEADER + w, List.Cons(HEADER + 2 * w, List.Nil)))
  {
    var w := if s == 1 then 7 else 13;
    var f, ok := Skipper(d), Matcher(d, m, i);
    SkipperAdvances(d);
    ParsesRound(d, s, cls, 0, HEADER, 98, T_A);
    ParsesRound(d, s, cls, 1, HEADER + w, 98, T_NS);
    ParsesRound(d, s, cls, 2, HEADER + 2 * w, 97, T_A);
    MatchesRound(d, m, i, s, cls, 0, HEADER, 98, T_A);
    MatchesRound(d, m, i, s, cls, 1, HEADER + w, 98, T_NS);
    MatchesRound(d, m, i, s, cls, 2, HEADER + 2 * w, 97, T_A);
    assert Found(f, |d|, |d|, ok) == List.Nil;
    assert Found(f, |d|, HEADER + 2 * w, ok) == List.Cons(HEADER + 2 * w, List.Nil);
    assert Found(f, |d|, HEADER + w, ok) == List.Cons(HEADER + w, Found(f, |d|, HEADER + 2 * w, ok));
  }

  lemma OrderOfItems(d: seq<byte>, room: DnsParse.Room, x: Item, y: Item, l: byte, l': byte)
    requires Inside(d, x) && Inside(d, y) && x.section == y.section && x.rr.cls == y.rr.cls
    requires DnsParse.HostText(d, x.rr.dnp) == Some([l, DOT]) && DnsParse.HostText(d, y.rr.dnp) == Some([l', DOT])
    requires 97 <= l <= 98 && 97 <= l' <= 98
    ensures x.rr.typ != y.rr.typ ==> ItemOrder(d, room, x, y) == x.rr.dnp - y.rr.dnp
    ensures x.rr.typ == y.rr.typ && l != l' ==> ItemOrder(d, room, x, y) == l as int - l' as int
  {
    if l != l' {
      assert CaseFrom([l, DOT], [l', DOT], 0) == l as int - l' as int;
    }
  }

  /** The order of two records of the packet: by offset if their types differ, by name if they do not. */
  lemma OrderOfRound(d: seq<byte>, m: Memos, room: DnsParse.Room, s: nat, cls: nat,
                     j: nat, p: nat, l: byte, t: nat, k: nat, q: nat, l': byte, t': nat)
    requires Round(d, s, cls) && (m == UNSTUDIED || m == Study(d))
    requires Record(d, s, cls, j, p, l, t) && Record(d, s, cls, k, q, l', t') && 97 <= l <= 98 && 97 <= l' <= 98
    ensures t != t' ==> Order(d, m, room)(p, q) == p - q
    ensures t == t' && l != l' ==> Order(d, m, room)(p, q) == l as int - l' as int
  {
    var w := if s == 1 then 7 else 13;
    ParsesRound(d, s, cls, j, p, l, t);
    ParsesRound(d, s, cls, k, q, l', t');
    SectionOfRound(d, m, s, cls, j, p, l, t);
    SectionOfRound(d, m, s, cls, k, q, l', t');
    NamesRound(d, p, w, l, t, cls);
    NamesRound(d, q, w, l', t', cls);
    OrderOfItems(d, room, ItemAt(d, m, p), ItemAt(d, m, q), l, l');
  }

  /** No record is above itself. */
  lemma SelfOfRound(d: seq<byte>, m: Memos, room: DnsParse.Room, p: nat)
    requires HEADER <= |d|
    ensures Order(d, m, room)(p, p) <= 0
  {
    if RrParse(d, p).Some? {
      OrderByRank(d, room, ItemAt(d, m, p), ItemAt(d, m, p));
      CompareTurns(Rank(d, room, ItemAt(d, m, p)), Rank(d, room, ItemAt(d, m, p)));
    }
  }

  /**
   A packet on which iteration for all types never stops: a. comes before the first b., which comes
   before the second, which comes before a. again, and `dns_rr_grep` gives the three for ever.
   */
  lemma {:induction false} OrderGoesRound(d: seq<byte>, m: Memos, i: Filter, room: DnsParse.Room, s: nat, cls: nat,
                                          n: nat)
    requires Round(d, s, cls) && (m == UNSTUDIED || m == Study(d)) && AsksAll(i, s, cls)
    ensures var w := if s == 1 then 7 else 13;
            Result(Candidates(d, m, i), Order(d, m, room), |d|, n)
            == HEADER + w * if n % 3 == 0 then 2 else if n % 3 == 1 then 0 else 1
  {
    var w, sort := if s == 1 then 7 else 13, Order(d, m, room);
    var a, b, c := HEADER, HEADER + w, HEADER + 2 * w;
    RoundCandidates(d, m, i, s, cls);
    OrderOfRound(d, m, room, s, cls, 0, a, 98, T_A, 1, b, 98, T_NS);
    OrderOfRound(d, m, room, s, cls, 1, b, 98, T_NS, 0, a, 98, T_A);
    OrderOfRound(d, m, room, s, cls, 1, b, 98, T_NS, 2, c, 97, T_A);
    OrderOfRound(d, m, room, s, cls, 2, c, 97, T_A, 1, b, 98, T_NS);
    OrderOfRound(d, m, room, s, cls, 0, a, 98, T_A, 2, c, 97, T_A);
    OrderOfRound(d, m, room, s, cls, 2, c, 97, T_A, 0, a, 98, T_A);
    SelfOfRound(d, m, room, a);
    SelfOfRound(d, m, room, b);
    SelfOfRound(d, m, room, c);
    NeverStops(a, b, c, sort, |d|, n);
  }

  // ---------------------------------------------------------------- which filters are safe

  ghost predicate StopsOn(d: seq<byte>, m: Memos, i: Filter, room: DnsParse.Room) {
    Fresh(d, m, i) ==> Stops(Candidates(d, m, i), Order(d, m, room), |d|)
  }

  /** Some section that the mask asks for. */
  function SomeSection(mask: nat): (s: nat)
    requires mask < 16
    ensures s in {1, 2, 4, 8} && (mask == 0 || Selected(mask, s))
  {
    if mask % 2 == 1 then 1 else if mask / 2 % 2 == 1 then 2 else if mask / 4 % 2 == 1 then 4 else 8
  }

  /**
   Iteration under `dns_rr_i_order` comes to an end on every packet exactly when the filter names a type
   (for filters by section, type and class).
   */
  lemma {:induction false} StopsForOneType(i: Filter, room: DnsParse.Room)
    requires i.section < 16 && i.cls < 65536 && forall rp: nat :: i.more(rp)
    ensures (forall d, m :: StopsOn(d, m, i, room)) <==> NamesType(i)
  {
    if NamesType(i) {
      forall d, m ensures StopsOn(d, m, i, room) {
        if Fresh(d, m, i) {
          OrderVisits(d, m, i, room, 0);
        }
      }
    } else {
      var s := SomeSection(i.section);
      var d := RoundPacket(s, i.cls);
      RoundPacketIsRound(s, i.cls);
      forall n: nat ensures Result(Candidates(d, UNSTUDIED, i), Order(d, UNSTUDIED, room), |d|, n) != |d| {
        OrderGoesRound(d, UNSTUDIED, i, room, s, i.cls, n);
      }
      assert !StopsOn(d, UNSTUDIED, i, room);
    }
  }
}
