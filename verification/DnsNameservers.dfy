/**
 The order in which the resolver visits the name servers of an answer (`dns_res_nameserv_cmp`). The comparison reads
 offsets that nothing has set; what it finds there can be anything.
 */
module DnsNameservers {
  import opened Wrappers

  /**
   A name server: where the first of its addresses stands in the packet, if there is any; whether its name parses; and
   the section and the shuffled offset of its record.
   */
  datatype Server = Server(glue: Option<nat>, parses: bool, section: nat, shuffled: nat)

  function Bit(b: bool): int {
    if b then 1 else 0
  }

  /** `dns_rr_i_shuffle`. */
  function ShuffleOrder(a: Server, b: Server): int {
    if a.section != b.section then a.section - b.section else a.shuffled - b.shuffled
  }

  /**
   The comparison; `end` is where the packet ended when the iteration began, `u` and `v` are what is found where no
   offset was set.  A server without glue that parses sets the first offset to 0, whichever of the two it is.
   */
  function Compare(a: Server, b: Server, end: nat, u: nat, v: nat): int {
    var x := if b.parses && b.glue.None? then 0 else if a.glue.Some? then a.glue.value else if a.parses then 0 else u;
    var y := if b.glue.Some? then b.glue.value else v;
    var glued := Bit(b.glue.Some?) - Bit(a.glue.Some?);
    var original := Bit(y < end) - Bit(x < end);
    if glued != 0 then glued else if original != 0 then original else ShuffleOrder(a, b)
  }

  /** Glue comes before no glue, and glue that was there before glue that was added. */
  function Rank(a: Server, end: nat): nat {
    if a.glue.None? then 2 else if a.glue.value < end then 0 else 1
  }

  predicate Higher(a: Server, b: Server, end: nat) {
    var x, y := Rank(a, end), Rank(b, end);
    x > y || (x == y && (a.section > b.section || (a.section == b.section && a.shuffled > b.shuffled)))
  }

  /**
   Servers that parse: one comes after another exactly if it is higher, except that of two without glue neither may,
   as what is found decides.
   */
  lemma OnlyRises(a: Server, b: Server, end: nat, u: nat, v: nat)
    requires a.parses && b.parses && end > 0
    ensures Compare(a, b, end, u, v) > 0 <==> Higher(a, b, end) && (a.glue.Some? || b.glue.Some? || v < end)
  {
  }

  /** Of two that do not parse each can come after the other: what was found decides. */
  lemma Unparsed(a: Server, b: Server, end: nat)
    requires !a.parses && !b.parses && a.glue.None? && b.glue.None? && end > 0
    ensures Compare(a, b, end, end, 0) > 0 && Compare(b, a, end, end, 0) > 0
  {
  }

  /** The server `a` can be found to come after `b`. */
  ghost predicate Follows(a: Server, b: Server, end: nat) {
    exists u: nat, v: nat {:trigger Compare(a, b, end, u, v)} :: Compare(a, b, end, u, v) > 0
  }

  /** One server after another, each found to come after the one before. */
  ghost predicate Visits(s: seq<Server>, end: nat) {
    forall j, k :: 0 <= j && k == j + 1 < |s| ==> Follows(s[k], s[j], end)
  }

  predicate AllParse(s: seq<Server>) {
    forall i :: 0 <= i < |s| ==> s[i].parses
  }

  lemma {:induction false} LaterIsHigher(s: seq<Server>, end: nat, j: nat, k: nat)
    requires Visits(s, end) && end > 0 && AllParse(s) && j < k < |s|
    ensures Higher(s[k], s[j], end)
    decreases k
  {
    assert Follows(s[k], s[k - 1], end);
    var u: nat, v: nat :| Compare(s[k], s[k - 1], end, u, v) > 0;
    OnlyRises(s[k], s[k - 1], end, u, v);
    if j < k - 1 {
      LaterIsHigher(s, end, j, k - 1);
    }
  }

  lemma {:induction false} ApartSize(s: seq<Server>, all: set<Server>)
    requires (forall i :: 0 <= i < |s| ==> s[i] in all) && forall i, j :: 0 <= i < j < |s| ==> s[i] != s[j]
    ensures |s| <= |all|
    decreases |s|
  {
    if s != [] {
      ApartSize(s[1..], all - {s[0]});
    }
  }

  /**
   Whatever is found, an iteration over servers that parse gives each of them at most once, and so comes to an end.
   */
  lemma {:induction false} VisitsEnd(s: seq<Server>, end: nat, all: set<Server>)
    requires Visits(s, end) && end > 0 && AllParse(s) && forall i :: 0 <= i < |s| ==> s[i] in all
    ensures |s| <= |all| && forall i, j :: 0 <= i < j < |s| ==> s[i] != s[j]
  {
    forall i, j | 0 <= i < j < |s| ensures s[i] != s[j] {
      LaterIsHigher(s, end, i, j);
    }
    ApartSize(s, all);
  }
}
