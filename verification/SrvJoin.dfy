/**
 Joining the address lists of several queries (`belle_sip_resolver.c`): for each SRV record one query, or one for IPv4
 and one for IPv6, whose answers come in any order.
 */
module SrvJoin {
  /** An address list. */
  type Addresses = seq<int>

  /** What is known about one SRV record: the answer of its only query, or those of its IPv4 and its IPv6 query. */
  datatype Leaf =
    | Single(done: bool, results: Addresses)
    | Dual(aDone: bool, a: Addresses, aaaaDone: bool, aaaa: Addresses)
  {
    predicate Complete() {
      if Single? then done else aDone && aaaaDone
    }

    function Results(): Addresses {
      if Single? then results else aaaa + a
    }

    /** The queries that are not answered yet. */
    function Open(): nat {
      if Single? then (if done then 0 else 1) else (if aDone then 0 else 1) + (if aaaaDone then 0 else 1)
    }
  }

  /** Query `leaf` is answered: its IPv6 query if `v6`. */
  datatype Answer = Answer(leaf: nat, v6: bool, list: Addresses)

  /** The records whose queries are under way, in SRV order, and the lists the callback was called with. */
  datatype Join = Join(leaves: seq<Leaf>, fired: seq<Addresses>)

  function AllResults(ls: seq<Leaf>): Addresses {
    if ls == [] then [] else AllResults(ls[..|ls| - 1]) + ls[|ls| - 1].Results()
  }

  predicate AllComplete(ls: seq<Leaf>) {
    forall i :: 0 <= i < |ls| ==> ls[i].Complete()
  }

  /** `on_ipv4_results`, `on_ipv6_results`, or the callback of a single query. */
  function Heard(l: Leaf, v6: bool, list: Addresses): Leaf {
    if l.Single? then Single(true, list)
    else if v6 then l.(aaaaDone := true, aaaa := list)
    else l.(aDone := true, a := list)
  }

  /** `combined_resolver_context_check_finished`. */
  function Checked(j: Join): Join {
    if AllComplete(j.leaves) then Join([], j.fired + [AllResults(j.leaves)]) else j
  }

  function After(j: Join, e: Answer): Join
    requires e.leaf < |j.leaves|
  {
    var l := Heard(j.leaves[e.leaf], e.v6, e.list);
    var next := j.(leaves := j.leaves[e.leaf := l]);
    if l.Complete() then Checked(next) else next
  }

  // ---------------------------------------------------------------- any order of the answers

  /** The query an answer belongs to is under way. */
  predicate Awaited(j: Join, e: Answer) {
    e.leaf < |j.leaves| && var l := j.leaves[e.leaf];
    if l.Single? then !l.done && !e.v6 else if e.v6 then !l.aaaaDone else !l.aDone
  }

  /** Each answer is to a query under way, and is what `ans` says of it. */
  predicate Answers(j: Join, es: seq<Answer>, ans: (nat, bool) -> Addresses)
    decreases |es|
  {
    es == [] || (Awaited(j, es[0]) && es[0].list == ans(es[0].leaf, es[0].v6) && Answers(After(j, es[0]), es[1..], ans))
  }

  function Run(j: Join, es: seq<Answer>): Join
    decreases |es|
  {
    if es == [] || !Awaited(j, es[0]) then j else Run(After(j, es[0]), es[1..])
  }

  /** A record with a dual query, or with a single one, before any answer. */
  function Fresh(dual: bool): Leaf {
    if dual then Dual(false, [], false, []) else Single(false, [])
  }

  function Start(duals: seq<bool>): Join {
    Join(seq(|duals|, i requires 0 <= i < |duals| => Fresh(duals[i])), [])
  }

  /** A record with all its answers. */
  function Final(dual: bool, i: nat, ans: (nat, bool) -> Addresses): Leaf {
    if dual then Dual(true, ans(i, false), true, ans(i, true)) else Single(true, ans(i, false))
  }

  /** What the callback is to be given: record by record in SRV order, IPv6 before IPv4. */
  function Expected(duals: seq<bool>, ans: (nat, bool) -> Addresses): Addresses {
    AllResults(seq(|duals|, i requires 0 <= i < |duals| => Final(duals[i], i, ans)))
  }

  /** What is recorded of a record is what was answered. */
  predicate Recorded(l: Leaf, dual: bool, i: nat, ans: (nat, bool) -> Addresses) {
    l.Dual? == dual
    && if dual then (l.aDone ==> l.a == ans(i, false)) && (l.aaaaDone ==> l.aaaa == ans(i, true))
       else (l.done ==> l.results == ans(i, false))
  }

  /** The callback has not been called, and there is a query under way. */
  predicate Waiting(j: Join, duals: seq<bool>, ans: (nat, bool) -> Addresses) {
    j.fired == [] && |j.leaves| == |duals| && !AllComplete(j.leaves)
    && forall i :: 0 <= i < |duals| ==> Recorded(j.leaves[i], duals[i], i, ans)
  }

  function Open(ls: seq<Leaf>): nat {
    if ls == [] then 0 else Open(ls[..|ls| - 1]) + ls[|ls| - 1].Open()
  }

  lemma {:induction false} OpenOver(ls: seq<Leaf>, i: nat, l: Leaf)
    requires i < |ls|
    ensures Open(ls[i := l]) + ls[i].Open() == Open(ls) + l.Open()
    decreases |ls|
  {
    var n := |ls| - 1;
    if i < n {
      assert ls[i := l][..n] == ls[..n][i := l];
      OpenOver(ls[..n], i, l);
    } else {
      assert ls[i := l][..n] == ls[..n];
    }
  }

  lemma {:induction false} NoneOpen(ls: seq<Leaf>)
    ensures Open(ls) == 0 <==> AllComplete(ls)
    decreases |ls|
  {
    if ls != [] {
      NoneOpen(ls[..|ls| - 1]);
    }
  }

  /** An answer is one query less; the last one calls the callback. */
  lemma AfterGood(j: Join, e: Answer, duals: seq<bool>, ans: (nat, bool) -> Addresses)
    requires Waiting(j, duals, ans) && Awaited(j, e) && e.list == ans(e.leaf, e.v6)
    ensures var k := After(j, e);
            if Open(j.leaves) == 1 then k == Join([], [Expected(duals, ans)])
            else Waiting(k, duals, ans) && Open(k.leaves) == Open(j.leaves) - 1
  {
    var l := Heard(j.leaves[e.leaf], e.v6, e.list);
    var ls := j.leaves[e.leaf := l];
    OpenOver(j.leaves, e.leaf, l);
    NoneOpen(ls);
    assert ls[e.leaf] == l && l.Open() + 1 == j.leaves[e.leaf].Open();
    if AllComplete(ls) {
      var finals := seq(|duals|, i requires 0 <= i < |duals| => Final(duals[i], i, ans));
      forall i | 0 <= i < |duals| ensures ls[i] == finals[i] {
        assert ls[i].Complete() && Recorded(ls[i], duals[i], i, ans);
      }
      assert ls == finals;
    }
  }

  lemma {:induction false} RunGood(j: Join, es: seq<Answer>, duals: seq<bool>, ans: (nat, bool) -> Addresses)
    requires Waiting(j, duals, ans) && Answers(j, es, ans)
    ensures |es| <= Open(j.leaves)
    ensures Run(j, es).fired == if |es| == Open(j.leaves) then [Expected(duals, ans)] else []
    decreases |es|
  {
    NoneOpen(j.leaves);
    if es != [] {
      AfterGood(j, es[0], duals, ans);
      if Open(j.leaves) == 1 {
        assert es[1..] == [];
      } else {
        RunGood(After(j, es[0]), es[1..], duals, ans);
      }
    }
  }

  /** How many queries there are. */
  function Queries(duals: seq<bool>): nat {
    if duals == [] then 0 else Queries(duals[..|duals| - 1]) + if duals[|duals| - 1] then 2 else 1
  }

  lemma {:induction false} StartsOpen(duals: seq<bool>)
    ensures Open(Start(duals).leaves) == Queries(duals)
    decreases |duals|
  {
    if duals != [] {
      var n := |duals| - 1;
      assert Start(duals).leaves[..n] == Start(duals[..n]).leaves;
      StartsOpen(duals[..n]);
    }
  }

  /** The addresses of the `i`-th record: those of IPv6 come before those of IPv4. */
  function Stretch(duals: seq<bool>, ans: (nat, bool) -> Addresses, i: nat): Addresses
    requires i < |duals|
  {
    if duals[i] then ans(i, true) + ans(i, false) else ans(i, false)
  }

  /** Where the addresses of the `i`-th record begin. */
  function Offset(duals: seq<bool>, ans: (nat, bool) -> Addresses, i: nat): nat
    requires i <= |duals|
  {
    if i == 0 then 0 else Offset(duals, ans, i - 1) + |Stretch(duals, ans, i - 1)|
  }

  /** The `i`-th stretch stands where it is to. */
  predicate StandsAt(given: Addresses, duals: seq<bool>, ans: (nat, bool) -> Addresses, i: nat)
    requires i < |duals|
  {
    var p, s := Offset(duals, ans, i), Stretch(duals, ans, i);
    p + |s| <= |given| && given[p..p + |s|] == s
  }

  /** The list holds the addresses of the records in SRV order, and nothing else. */
  predicate InOrder(given: Addresses, duals: seq<bool>, ans: (nat, bool) -> Addresses) {
    |given| == Offset(duals, ans, |duals|)
    && forall i :: 0 <= i < |duals| ==> StandsAt(given, duals, ans, i)
  }

  lemma StandsOn(given: Addresses, more: Addresses, duals: seq<bool>, ans: (nat, bool) -> Addresses, i: nat)
    requires i < |duals| && StandsAt(given, duals, ans, i)
    ensures StandsAt(given + more, duals, ans, i)
  {
    var p, s := Offset(duals, ans, i), Stretch(duals, ans, i);
    assert (given + more)[p..p + |s|] == given[p..p + |s|];
  }

  lemma EndOf(a: Addresses, b: Addresses)
    ensures (a + b)[|a|..|a| + |b|] == b
  {
  }

  lemma StandsLast(given: Addresses, duals: seq<bool>, ans: (nat, bool) -> Addresses, i: nat)
    requires i < |duals| && |given| == Offset(duals, ans, i)
    ensures StandsAt(given + Stretch(duals, ans, i), duals, ans, i)
  {
    EndOf(given, Stretch(duals, ans, i));
  }

  lemma {:induction false} ResultsInOrder(duals: seq<bool>, ans: (nat, bool) -> Addresses, ls: seq<Leaf>, n: nat)
    requires n == |ls| <= |duals| && forall i :: 0 <= i < n ==> ls[i] == Final(duals[i], i, ans)
    ensures |AllResults(ls)| == Offset(duals, ans, n)
    ensures forall i :: 0 <= i < n ==> StandsAt(AllResults(ls), duals, ans, i)
    decreases n
  {
    if n > 0 {
      var before, last := AllResults(ls[..n - 1]), Stretch(duals, ans, n - 1);
      ResultsInOrder(duals, ans, ls[..n - 1], n - 1);
      assert ls[n - 1].Results() == last;
      StandsLast(before, duals, ans, n - 1);
      forall i | 0 <= i < n - 1 ensures StandsAt(before + last, duals, ans, i) {
        StandsOn(before, last, duals, ans, i);
      }
    }
  }

  lemma ExpectedInOrder(duals: seq<bool>, ans: (nat, bool) -> Addresses)
    ensures InOrder(Expected(duals, ans), duals, ans)
  {
    ResultsInOrder(duals, ans, seq(|duals|, i requires 0 <= i < |duals| => Final(duals[i], i, ans)), |duals|);
  }

  /**
   In whatever order the queries are answered, the callback is called once, with the last answer, and is given the
   same list: the addresses of each record in SRV order, those of IPv6 before those of IPv4.
   */
  lemma {:induction false} CalledOnce(duals: seq<bool>, es: seq<Answer>, ans: (nat, bool) -> Addresses)
    requires duals != [] && Answers(Start(duals), es, ans)
    ensures |es| <= Queries(duals)
    ensures Run(Start(duals), es).fired == if |es| == Queries(duals) then [Expected(duals, ans)] else []
    ensures InOrder(Expected(duals, ans), duals, ans)
  {
    StartsOpen(duals);
    ExpectedInOrder(duals, ans);
    assert !Start(duals).leaves[0].Complete();
    RunGood(Start(duals), es, duals, ans);
  }

  // ---------------------------------------------------------------- linking address lists

  /** `struct addrinfo`, as far as its link goes. */
  class AddrInfo {
    const address: int
    var next: AddrInfo?

    constructor (address: int)
      ensures this.address == address && next == null
    {
      this.address, next := address, null;
    }
  }

  /** `first` is the head of the list of the nodes `ns`. */
  ghost predicate Linked(first: AddrInfo?, ns: seq<AddrInfo>)
    reads ns
  {
    (if ns == [] then first == null else first == ns[0])
    && (forall i {:trigger ns[i].next} :: 0 <= i < |ns| ==> ns[i].next == if i + 1 < |ns| then ns[i + 1] else null)
    && forall i, j :: 0 <= i < j < |ns| ==> ns[i] != ns[j]
  }

  /** `ai_list_append`: the second list is linked behind the first one. */
  method AiListAppend(list: AddrInfo?, toAppend: AddrInfo?, ghost ns: seq<AddrInfo>, ghost ms: seq<AddrInfo>)
    returns (r: AddrInfo?)
    requires Linked(list, ns) && Linked(toAppend, ms) && forall n :: n in ns ==> n !in ms
    modifies if ns == [] || ms == [] then {} else {ns[|ns| - 1]}
    ensures Linked(r, ns + ms)
  {
    if toAppend == null {
      assert ns + ms == ns;
      return list;
    }
    if list == null {
      assert ns + ms == ms;
      return toAppend;
    }
    var current := list;
    ghost var i := 0;
    while current.next != null
      invariant 0 <= i < |ns| && current == ns[i]
      decreases |ns| - i
    {
      assert ns[i].next == if i + 1 < |ns| then ns[i + 1] else null;
      current := current.next;
      i := i + 1;
    }
    assert ns[i].next == null;
    assert i == |ns| - 1 && current in ns && current !in ms;
    current.next := toAppend;
    r := list;
    ghost var all := ns + ms;
    forall k, l | 0 <= k < l < |all| ensures all[k] != all[l] {
      assert k < |ns| <= l ==> all[k] in ns && all[l] in ms;
    }
    forall k | 0 <= k < |all| ensures all[k].next == if k + 1 < |all| then all[k + 1] else null {
      if k < |ns| {
        assert k < |ns| - 1 ==> ns[k].next == ns[k + 1];
      } else {
        assert ms[k - |ns|] in ms;
        assert ms[k - |ns|].next == if k - |ns| + 1 < |ms| then ms[k - |ns| + 1] else null;
      }
    }
  }

  // ---------------------------------------------------------------- the code

  /** An SRV record with the state of its queries. */
  class Srv {
    const dual: bool
    var aDone: bool
    var aResults: Addresses
    var aaaaDone: bool
    var aaaaResults: Addresses

    constructor (dual: bool)
      ensures this.dual == dual && View() == Fresh(dual)
    {
      this.dual, aDone, aaaaDone, aResults, aaaaResults := dual, false, false, [], [];
    }

    /** Of a single query the answer is kept where a dual one keeps that of its IPv4 query. */
    function View(): Leaf
      reads this
    {
      if dual then Dual(aDone, aResults, aaaaDone, aaaaResults) else Single(aDone, aResults)
    }
  }

  /** The records' states. */
  ghost function Views(srvs: seq<Srv>): seq<Leaf>
    reads srvs
  {
    seq(|srvs|, i requires 0 <= i < |srvs| reads srvs => srvs[i].View())
  }

  class CombinedResolver {
    var srvs: seq<Srv>
    var fired: seq<Addresses>

    ghost predicate Valid()
      reads this
    {
      forall i, j :: 0 <= i < j < |srvs| ==> srvs[i] != srvs[j]
    }

    ghost function View(): Join
      reads this, srvs
    {
      Join(Views(srvs), fired)
    }

    /** `combined_resolver_context_check_finished`. */
    method CheckFinished()
      requires Valid()
      modifies this
      ensures Valid() && View() == Checked(old(View()))
    {
      var i := 0;
      while i < |srvs|
        invariant 0 <= i <= |srvs| && forall k :: 0 <= k < i ==> srvs[k].View().Complete()
      {
        if !srvs[i].View().Complete() {
          assert Views(srvs)[i] == srvs[i].View();
          return;
        }
        i := i + 1;
      }
      ghost var ls := Views(srvs);
      var all: Addresses := [];
      i := 0;
      while i < |srvs|
        invariant 0 <= i <= |srvs| && all == AllResults(ls[..i])
      {
        assert ls[..i + 1][..i] == ls[..i];
        all := all + srvs[i].View().Results();
        i := i + 1;
      }
      assert ls[..i] == ls;
      srvs, fired := [], fired + [all];
      assert Views(srvs) == [];
    }

    /** `on_ipv4_results` and `on_ipv6_results` of a dual query, or the callback of a single one. */
    method OnResults(i: nat, v6: bool, list: Addresses)
      requires Valid() && i < |srvs| && (v6 ==> srvs[i].dual)
      modifies this, srvs[i]
      ensures Valid() && View() == After(old(View()), Answer(i, v6, list))
    {
      ghost var j := View();
      var srv := srvs[i];
      if v6 {
        srv.aaaaDone, srv.aaaaResults := true, list;
      } else {
        srv.aDone, srv.aResults := true, list;
      }
      assert Views(srvs) == j.leaves[i := Heard(j.leaves[i], v6, list)];
      if srv.View().Complete() {
        CheckFinished();
      }
    }
  }
}
