/**
 Iteration by repeated selection, as `dns_rr_grep` and `dns_hints_grep` do it: the first result is the least
 candidate, and each further result is the least of those greater than the one before.  No state is
 kept but the last result.
 */
module DnsSelect {
  datatype List = Nil | Cons(head: nat, tail: List)

  type Sort = (nat, nat) -> int

  predicate Has(l: List, x: nat) {
    l.Cons? && (l.head == x || Has(l.tail, x))
  }

  function Size(l: List): nat {
    if l == Nil then 0 else 1 + Size(l.tail)
  }

  /** The candidate that a scan is left with that replaces `x` by whatever sorts before it. */
  function Pick(x: nat, l: List, sort: Sort): nat
    decreases l
  {
    if l == Nil then x else Pick(if sort(l.head, x) < 0 then l.head else x, l.tail, sort)
  }

  /** The candidates that sort after `x`. */
  function Above(l: List, x: nat, sort: Sort): List {
    if l == Nil then Nil
    else if sort(l.head, x) > 0 then Cons(l.head, Above(l.tail, x, sort))
    else Above(l.tail, x, sort)
  }

  // ---------------------------------------------------------------- results, whatever the comparison

  /** The first result; `end` when there is none. */
  function First(l: List, sort: Sort, end: nat): nat {
    if l == Nil then end else Pick(l.head, l.tail, sort)
  }

  /** The result that follows `x`. */
  function Next(l: List, x: nat, sort: Sort, end: nat): nat {
    First(Above(l, x, sort), sort, end)
  }

  /** The `n`-th result, or `end`. */
  function Result(l: List, sort: Sort, end: nat, n: nat): nat {
    if n == 0 then First(l, sort, end)
    else
      var x := Result(l, sort, end, n - 1);
      if x == end then end else Next(l, x, sort, end)
  }

  /** The results come to an end. */
  ghost predicate Stops(l: List, sort: Sort, end: nat) {
    exists n: nat :: Result(l, sort, end, n) == end
  }

  lemma {:induction false} PickHas(x: nat, l: List, sort: Sort)
    ensures Has(Cons(x, l), Pick(x, l, sort))
    decreases l
  {
    if l.Cons? {
      PickHas(if sort(l.head, x) < 0 then l.head else x, l.tail, sort);
    }
  }

  lemma {:induction false} AboveHas(l: List, x: nat, sort: Sort, y: nat)
    ensures Has(Above(l, x, sort), y) <==> Has(l, y) && sort(y, x) > 0
  {
    if l.Cons? {
      AboveHas(l.tail, x, sort, y);
    }
  }

  lemma FirstHas(l: List, sort: Sort, end: nat)
    ensures l.Cons? ==> Has(l, First(l, sort, end))
  {
    if l.Cons? {
      PickHas(l.head, l.tail, sort);
      assert Cons(l.head, l.tail) == l;
    }
  }

  /** A result is a candidate. */
  lemma ResultHas(l: List, sort: Sort, end: nat, n: nat)
    ensures Result(l, sort, end, n) == end || Has(l, Result(l, sort, end, n))
  {
    if n == 0 {
      FirstHas(l, sort, end);
    } else {
      var x := Result(l, sort, end, n - 1);
      FirstHas(Above(l, x, sort), sort, end);
      AboveHas(l, x, sort, Next(l, x, sort, end));
    }
  }

  // ---------------------------------------------------------------- orders

  /**
   `sort` ranks the candidates: what is above another is below nothing of its rank, and ranks
   are transitive.  Candidates of one rank may compare as 0, or as less both ways.
   */
  ghost predicate Ranked(l: List, sort: Sort) {
    (forall x, y {:trigger sort(x, y)} :: Has(l, x) && Has(l, y) && sort(x, y) > 0 ==> sort(y, x) < 0)
    && forall x, y, z {:trigger sort(x, y), sort(y, z)} ::
         Has(l, x) && Has(l, y) && Has(l, z) && sort(x, y) <= 0 && sort(y, z) <= 0 ==> sort(x, z) <= 0
  }

  /** Neither is above the other. */
  predicate Ties(x: nat, y: nat, sort: Sort) {
    sort(x, y) <= 0 && sort(y, x) <= 0
  }

  /** Comparing keys ranks the candidates. */
  lemma KeysRank(l: List, sort: Sort, key: nat -> int)
    requires forall x, y {:trigger sort(x, y)} :: Has(l, x) && Has(l, y) ==>
               (sort(x, y) < 0 <==> key(x) < key(y)) && (sort(x, y) > 0 <==> key(x) > key(y))
    ensures Ranked(l, sort)
    ensures forall x, y {:trigger Ties(x, y, sort)} :: Has(l, x) && Has(l, y) ==>
                                                       (Ties(x, y, sort) <==> key(x) == key(y))
  {
  }

  predicate Within(l: List, all: List) {
    l.Cons? ==> Has(all, l.head) && Within(l.tail, all)
  }

  lemma {:induction false} WithinHas(l: List, all: List, x: nat)
    requires Within(l, all) && Has(l, x)
    ensures Has(all, x)
  {
    if l.head != x {
      WithinHas(l.tail, all, x);
    }
  }

  lemma {:induction false} WithinMore(l: List, all: List, x: nat)
    requires Within(l, all)
    ensures Within(l, Cons(x, all))
  {
    if l.Cons? {
      WithinMore(l.tail, all, x);
    }
  }

  lemma {:induction false} WithinSelf(l: List)
    ensures Within(l, l)
  {
    if l.Cons? {
      WithinSelf(l.tail);
      WithinMore(l.tail, l.tail, l.head);
    }
  }

  lemma {:induction false} AboveWithin(l: List, x: nat, sort: Sort, all: List)
    requires Within(l, all)
    ensures Within(Above(l, x, sort), all)
  {
    if l.Cons? {
      AboveWithin(l.tail, x, sort, all);
    }
  }

  /** `x` is a candidate and above none. */
  ghost predicate Least(x: nat, l: List, sort: Sort) {
    Has(l, x) && forall y {:trigger Has(l, y)} :: Has(l, y) ==> sort(x, y) <= 0
  }

  lemma {:induction false} PickIsLeast(x: nat, l: List, sort: Sort, all: List)
    requires Ranked(all, sort) && Has(all, x) && Within(l, all)
    ensures Least(Pick(x, l, sort), Cons(x, l), sort) && Has(all, Pick(x, l, sort))
    decreases l
  {
    if l.Cons? {
      var x' := if sort(l.head, x) < 0 then l.head else x;
      PickIsLeast(x', l.tail, sort, all);
      ScanLowers(x, l.head, x', sort, all);
      forall y | Has(Cons(x, l), y) ensures sort(Pick(x, l, sort), y) <= 0 {
        LeastStep(Pick(x, l, sort), x, l, x', sort, all, y);
      }
      assert Has(Cons(x, l), Pick(x, l, sort));
    }
  }

  lemma LeastStep(p: nat, x: nat, l: List, x': nat, sort: Sort, all: List, y: nat)
    requires Ranked(all, sort) && Has(all, x) && Has(all, x') && Has(all, p) && l.Cons? && Has(all, l.head)
    requires Least(p, Cons(x', l.tail), sort) && sort(x', x) <= 0 && sort(x', l.head) <= 0 && Has(Cons(x, l), y)
    ensures sort(p, y) <= 0
  {
    assert Has(Cons(x', l.tail), x');
    assert sort(p, x') <= 0;
    if y != x && y != l.head {
      assert Has(l, y) && Has(l.tail, y);
      assert Has(Cons(x', l.tail), y);
    }
  }

  lemma ScanLowers(x: nat, h: nat, x': nat, sort: Sort, all: List)
    requires Ranked(all, sort) && Has(all, x) && Has(all, h) && x' == if sort(h, x) < 0 then h else x
    ensures sort(x', x) <= 0 && sort(x', h) <= 0
  {
    assert !(sort(x, x) > 0) && !(sort(h, h) > 0);
    assert sort(x, h) > 0 ==> sort(h, x) < 0;
  }

  // ---------------------------------------------------------------- candidates of one rank

  /** The candidates of the rank of `y`. */
  function Tied(l: List, y: nat, sort: Sort): List {
    if l == Nil then Nil
    else if Ties(l.head, y, sort) then Cons(l.head, Tied(l.tail, y, sort))
    else Tied(l.tail, y, sort)
  }

  /** The candidate of the rank of `y` that a scan of these alone is left with. */
  function Chosen(l: List, y: nat, sort: Sort): nat {
    First(Tied(l, y, sort), sort, y)
  }

  lemma {:induction false} TiedHas(l: List, y: nat, sort: Sort, x: nat)
    ensures Has(Tied(l, y, sort), x) <==> Has(l, x) && Ties(x, y, sort)
  {
    if l.Cons? {
      TiedHas(l.tail, y, sort, x);
    }
  }

  lemma {:induction false} TiedSame(l: List, x: nat, y: nat, sort: Sort, all: List)
    requires Ranked(all, sort) && Within(l, all) && Has(all, x) && Has(all, y) && Ties(x, y, sort)
    ensures Tied(l, x, sort) == Tied(l, y, sort)
  {
    if l.Cons? {
      TiedSame(l.tail, x, y, sort, all);
    }
  }

  /** What is tied with something above `x` is above `x`. */
  lemma {:induction false} TiedAbove(l: List, x: nat, y: nat, sort: Sort, all: List)
    requires Ranked(all, sort) && Within(l, all) && Has(all, x) && Has(all, y) && sort(y, x) > 0
    ensures Tied(Above(l, x, sort), y, sort) == Tied(l, y, sort)
  {
    if l.Cons? {
      TiedAbove(l.tail, x, y, sort, all);
    }
  }

  /** A scan leaves what it would leave of the candidates of the least rank alone. */
  lemma {:induction false} PickIsChosen(x: nat, l: List, sort: Sort, all: List, p: nat)
    requires Ranked(all, sort) && Has(all, x) && Within(l, all) && p == Pick(x, l, sort) && Least(p, Cons(x, l), sort)
             && Has(all, p)
    ensures var t := Tied(l, p, sort);
            if Ties(x, p, sort) then Pick(x, t, sort) == p else t.Cons? && Pick(t.head, t.tail, sort) == p
    decreases l
  {
    if l.Cons? {
      var x' := if sort(l.head, x) < 0 then l.head else x;
      PickIsLeast(x', l.tail, sort, all);
      PickIsChosen(x', l.tail, sort, all, p);
      assert Has(Cons(x, l), x) && Has(Cons(x, l), l.head);
      assert sort(p, x) <= 0 && sort(p, l.head) <= 0;
    }
  }

  lemma FirstIsChosen(l: List, sort: Sort, all: List)
    requires Ranked(all, sort) && Within(l, all) && l.Cons?
    ensures var p := Pick(l.head, l.tail, sort); Least(p, l, sort) && Has(all, p) && Chosen(l, p, sort) == p
  {
    PickIsLeast(l.head, l.tail, sort, all);
    assert Cons(l.head, l.tail) == l;
    PickIsChosen(l.head, l.tail, sort, all, Pick(l.head, l.tail, sort));
  }

  /** Candidates in packet order. */
  predicate Ascending(l: List) {
    l.Cons? && l.tail.Cons? ==> l.head < l.tail.head && Ascending(l.tail)
  }

  lemma {:induction false} HeadIsLowest(l: List, x: nat)
    requires Ascending(l) && Has(l, x)
    ensures l.head <= x && Ascending(l.tail)
  {
    if l.head != x {
      HeadIsLowest(l.tail, x);
    }
  }

  lemma {:induction false} TiedAscends(l: List, y: nat, sort: Sort)
    requires Ascending(l)
    ensures Ascending(Tied(l, y, sort))
  {
    if l.Cons? {
      TiedAscends(l.tail, y, sort);
      var t := Tied(l.tail, y, sort);
      if t.Cons? {
        TiedHas(l.tail, y, sort, t.head);
        HeadIsLowest(l.tail, t.head);
      }
    }
  }

  /** All candidates of `l` compare with one another as 0, or all as less both ways. */
  ghost predicate Uniform(l: List, sort: Sort, zero: bool) {
    forall x, y {:trigger sort(x, y)} :: Has(l, x) && Has(l, y) ==> if zero then sort(x, y) == 0 else sort(x, y) < 0
  }

  /** Of candidates that compare as 0 a scan keeps the first; of those that compare as less both ways, the last. */
  lemma {:induction false} PickUniform(x: nat, l: List, sort: Sort, zero: bool, y: nat)
    requires Uniform(Cons(x, l), sort, zero) && Ascending(Cons(x, l)) && Has(Cons(x, l), y)
    ensures if zero then Pick(x, l, sort) <= y else y <= Pick(x, l, sort)
    decreases l
  {
    HeadIsLowest(Cons(x, l), y);
    if l.Cons? {
      assert Has(Cons(x, l), x) && Has(Cons(x, l), l.head);
      var x' := if sort(l.head, x) < 0 then l.head else x;
      assert x' == if zero then x else l.head;
      UniformTail(x, l, sort, zero, x');
      AscendingTail(x, l, x');
      if y == x || y == l.head {
        assert Has(Cons(x', l.tail), x');
        PickUniform(x', l.tail, sort, zero, x');
      } else {
        PickUniform(x', l.tail, sort, zero, y);
      }
    }
  }

  lemma UniformTail(x: nat, l: List, sort: Sort, zero: bool, x': nat)
    requires Uniform(Cons(x, l), sort, zero) && l.Cons? && (x' == x || x' == l.head)
    ensures Uniform(Cons(x', l.tail), sort, zero)
  {
    forall y, z | Has(Cons(x', l.tail), y) && Has(Cons(x', l.tail), z)
      ensures if zero then sort(y, z) == 0 else sort(y, z) < 0
    {
      assert Has(l, l.head);
      assert Has(Cons(x, l), y) && Has(Cons(x, l), z);
    }
  }

  lemma AscendingTail(x: nat, l: List, x': nat)
    requires Ascending(Cons(x, l)) && l.Cons? && (x' == x || x' == l.head)
    ensures Ascending(Cons(x', l.tail))
  {
    assert Cons(x, l).tail == l;
  }

  /** Which candidate of a rank is chosen, when they all compare alike. */
  lemma {:induction false} ChosenIs(l: List, sort: Sort, y: nat, zero: bool, z: nat)
    requires Ranked(l, sort) && Ascending(l) && Has(l, y) && Uniform(Tied(l, y, sort), sort, zero)
    requires Has(l, z) && Ties(z, y, sort)
    ensures if zero then Chosen(l, y, sort) <= z else z <= Chosen(l, y, sort)
  {
    var t := Tied(l, y, sort);
    TiedHas(l, y, sort, z);
    TiedAscends(l, y, sort);
    assert t == Cons(t.head, t.tail);
    PickUniform(t.head, t.tail, sort, zero, z);
  }

  // ---------------------------------------------------------------- the iteration

  /** What is above `y` is above `x`, too, and `y` itself is not above `y`. */
  lemma {:induction false} AboveShrinks(l: List, x: nat, y: nat, sort: Sort, all: List)
    requires Ranked(all, sort) && Has(all, x) && Has(all, y) && sort(y, x) > 0 && Within(l, all)
    ensures Size(Above(l, y, sort)) <= Size(Above(l, x, sort))
    ensures Has(l, y) ==> Size(Above(l, y, sort)) < Size(Above(l, x, sort))
    decreases l
  {
    if l.Cons? {
      AboveShrinks(l.tail, x, y, sort, all);
    }
  }

  lemma NextIsLeast(l: List, x: nat, sort: Sort)
    requires Ranked(l, sort) && Has(l, x) && Above(l, x, sort).Cons?
    ensures var up := Above(l, x, sort); var y := Pick(up.head, up.tail, sort);
            Has(l, y) && sort(y, x) > 0 && Least(y, up, sort) && Chosen(l, y, sort) == y
            && Size(Above(l, y, sort)) < Size(Above(l, x, sort))
  {
    var up := Above(l, x, sort);
    WithinSelf(l);
    AboveWithin(l, x, sort, l);
    FirstIsChosen(up, sort, l);
    var y := Pick(up.head, up.tail, sort);
    AboveHas(l, x, sort, y);
    TiedAbove(l, x, y, sort, l);
    AboveShrinks(l, x, y, sort, l);
  }

  /** What comes after `x`: nothing, or the least above it and what comes after that. */
  ghost function After(l: List, x: nat, sort: Sort): List
    requires Ranked(l, sort) && Has(l, x)
    decreases Size(Above(l, x, sort))
  {
    var up := Above(l, x, sort);
    if up == Nil then Nil
    else
      var y := Pick(up.head, up.tail, sort);
      NextIsLeast(l, x, sort);
      Cons(y, After(l, y, sort))
  }

  lemma StartIsLeast(l: List, sort: Sort)
    requires Ranked(l, sort) && l.Cons?
    ensures var x := Pick(l.head, l.tail, sort); Has(l, x) && Least(x, l, sort) && Chosen(l, x, sort) == x
  {
    WithinSelf(l);
    FirstIsChosen(l, sort, l);
  }

  /** All results, first to last. */
  ghost function Visit(l: List, sort: Sort): List
    requires Ranked(l, sort)
  {
    if l == Nil then Nil
    else
      StartIsLeast(l, sort);
      var x := Pick(l.head, l.tail, sort);
      Cons(x, After(l, x, sort))
  }

  /** Each result is above the one before, so no rank comes twice. */
  ghost predicate Rising(l: List, sort: Sort) {
    l.Cons? && l.tail.Cons? ==> sort(l.tail.head, l.head) > 0 && Rising(l.tail, sort)
  }

  lemma ChosenSame(l: List, x: nat, y: nat, sort: Sort)
    requires Ranked(l, sort) && Has(l, x) && Has(l, y) && Ties(x, y, sort)
    ensures Chosen(l, x, sort) == Chosen(l, y, sort)
  {
    WithinSelf(l);
    TiedSame(l, x, y, sort, l);
    TiedHas(l, y, sort, y);
    TiedHas(l, x, sort, x);
  }

  lemma {:induction false} AfterVisits(l: List, x: nat, sort: Sort, y: nat)
    requires Ranked(l, sort) && Has(l, x)
    ensures Rising(Cons(x, After(l, x, sort)), sort)
    ensures Has(After(l, x, sort), y) <==> Has(l, y) && sort(y, x) > 0 && Chosen(l, y, sort) == y
    decreases Size(Above(l, x, sort))
  {
    var up := Above(l, x, sort);
    AboveHas(l, x, sort, y);
    if up.Cons? {
      var z := Pick(up.head, up.tail, sort);
      NextIsLeast(l, x, sort);
      AfterVisits(l, z, sort, y);
      if Has(up, y) && sort(y, z) <= 0 {
        ChosenSame(l, y, z, sort);
      }
    }
  }

  /** The one candidate of each rank that comes is in fact of that rank. */
  lemma ChosenTies(l: List, sort: Sort, y: nat)
    requires Ranked(l, sort) && Has(l, y)
    ensures var c := Chosen(l, y, sort); Has(l, c) && Ties(c, y, sort) && Chosen(l, c, sort) == c
  {
    var t := Tied(l, y, sort);
    TiedHas(l, y, sort, y);
    WithinSelf(t);
    forall x | Has(t, x) ensures Has(l, x) && Ties(x, y, sort) {
      TiedHas(l, y, sort, x);
    }
    RankedWithin(t, l, sort);
    PickIsLeast(t.head, t.tail, sort, t);
    ChosenSame(l, Chosen(l, y, sort), y, sort);
  }

  lemma RankedWithin(t: List, l: List, sort: Sort)
    requires Ranked(l, sort) && forall x {:trigger Has(t, x)} :: Has(t, x) ==> Has(l, x)
    ensures Ranked(t, sort)
  {
  }

  /**
   Under any ranking, repeated selection rises strictly, gives exactly one candidate of each rank, the
   one a scan of that rank chooses, and then stops.
   */
  lemma {:induction false} VisitsAll(l: List, sort: Sort, y: nat)
    requires Ranked(l, sort)
    ensures Rising(Visit(l, sort), sort)
    ensures Has(Visit(l, sort), y) <==> Has(l, y) && Chosen(l, y, sort) == y
    ensures Has(l, y) ==> Has(Visit(l, sort), Chosen(l, y, sort)) && Ties(Chosen(l, y, sort), y, sort)
  {
    if l.Cons? {
      var x := Pick(l.head, l.tail, sort);
      StartIsLeast(l, sort);
      AfterVisits(l, x, sort, y);
      if Has(l, y) {
        StartReaches(l, sort, x, y);
        ChosenTies(l, sort, y);
        AfterVisits(l, x, sort, Chosen(l, y, sort));
        StartReaches(l, sort, x, Chosen(l, y, sort));
      }
    }
  }

  lemma StartReaches(l: List, sort: Sort, x: nat, y: nat)
    requires Ranked(l, sort) && Least(x, l, sort) && Has(l, y) && Chosen(l, x, sort) == x
    ensures sort(y, x) > 0 || (y == x <==> Chosen(l, y, sort) == y)
  {
    if sort(y, x) <= 0 {
      ChosenSame(l, x, y, sort);
    }
  }

  /** Two candidates, the second above the first. */
  predicate Rise(l: List, sort: Sort, x: nat, y: nat) {
    Has(l, x) && Has(l, y) && sort(y, x) > 0
  }

  lemma RiseOn(l: List, sort: Sort, x: nat, z: nat, y: nat)
    requires Ranked(l, sort) && Rise(l, sort, x, z) && Rise(l, sort, z, y)
    ensures Rise(l, sort, x, y)
  {
    assert sort(x, z) < 0;
  }

  lemma ResultAbove(l: List, sort: Sort, end: nat, j: nat)
    requires j > 0 && !Has(l, end) && Result(l, sort, end, j) != end
    ensures Result(l, sort, end, j - 1) != end && Rise(l, sort, Result(l, sort, end, j - 1), Result(l, sort, end, j))
  {
    var z, y := Result(l, sort, end, j - 1), Result(l, sort, end, j);
    ResultHas(l, sort, end, j - 1);
    FirstHas(Above(l, z, sort), sort, end);
    AboveHas(l, z, sort, y);
  }

  /** Of two results the later one is above the earlier one. */
  lemma {:induction false} ResultsRise(l: List, sort: Sort, end: nat, i: nat, j: nat)
    requires Ranked(l, sort) && i < j && !Has(l, end) && Result(l, sort, end, j) != end
    ensures Result(l, sort, end, i) != end && Rise(l, sort, Result(l, sort, end, i), Result(l, sort, end, j))
    decreases j
  {
    ResultAbove(l, sort, end, j);
    if i < j - 1 {
      ResultsRise(l, sort, end, i, j - 1);
      RiseOn(l, sort, Result(l, sort, end, i), Result(l, sort, end, j - 1), Result(l, sort, end, j));
    }
  }

  // ---------------------------------------------------------------- the results one by one

  function Nth(l: List, k: nat): nat {
    if l == Nil then 0 else if k == 0 then l.head else Nth(l.tail, k - 1)
  }

  function Drop(l: List, k: nat): List {
    if l == Nil || k == 0 then l else Drop(l.tail, k - 1)
  }

  function HeadOr(l: List, end: nat): nat {
    if l == Nil then end else l.head
  }

  lemma {:induction false} DropStep(l: List, k: nat)
    requires k < Size(l)
    ensures Drop(l, k).Cons? && Nth(l, k) == Drop(l, k).head && Drop(l, k + 1) == Drop(l, k).tail
    ensures Size(Drop(l, k)) == Size(l) - k
  {
    if k > 0 {
      DropStep(l.tail, k - 1);
    }
  }

  lemma {:induction false} DropAll(l: List)
    ensures Drop(l, Size(l)) == Nil
  {
    if l.Cons? {
      DropAll(l.tail);
    }
  }

  lemma StartFound(l: List, sort: Sort)
    requires Ranked(l, sort)
    ensures Suffix(l, sort, Visit(l, sort))
  {
    if l.Cons? {
      StartIsLeast(l, sort);
    }
  }

  lemma NextFound(l: List, x: nat, sort: Sort)
    requires Ranked(l, sort) && Has(l, x)
    ensures Suffix(l, sort, After(l, x, sort))
  {
    if Above(l, x, sort).Cons? {
      NextIsLeast(l, x, sort);
    }
  }

  /** `r` is what comes from `r.head` on. */
  ghost predicate Suffix(l: List, sort: Sort, r: List)
    requires Ranked(l, sort)
  {
    r.Cons? ==> Has(l, r.head) && r.tail == After(l, r.head, sort)
  }

  lemma SuffixStep(l: List, sort: Sort, r: List, end: nat)
    requires Ranked(l, sort) && r.Cons? && Suffix(l, sort, r)
    ensures Suffix(l, sort, r.tail) && Next(l, r.head, sort, end) == HeadOr(r.tail, end)
  {
    NextFound(l, r.head, sort);
  }

  lemma StartIs(l: List, sort: Sort, end: nat, v: List)
    requires Ranked(l, sort) && v == Visit(l, sort)
    ensures Drop(v, 0) == v && Suffix(l, sort, v) && Result(l, sort, end, 0) == HeadOr(v, end)
  {
    StartFound(l, sort);
  }

  lemma DropNext(l: List, k: nat, k': nat, r: List)
    requires k < Size(l) && k' == k + 1 && r == Drop(l, k)
    ensures r.Cons? && Drop(l, k') == r.tail
  {
    DropStep(l, k);
  }

  lemma ResultStep(l: List, sort: Sort, end: nat, n: nat, n': nat, r: List, r': List)
    requires Ranked(l, sort) && !Has(l, end) && r.Cons? && r' == r.tail && Suffix(l, sort, r) && n' == n + 1
    requires Result(l, sort, end, n) == r.head
    ensures Result(l, sort, end, n') == HeadOr(r', end) && Suffix(l, sort, r')
  {
    SuffixStep(l, sort, r, end);
  }

  lemma {:induction false} ResultsFrom(l: List, sort: Sort, end: nat, n: nat, v: List) returns (r: List)
    requires Ranked(l, sort) && v == Visit(l, sort) && n <= Size(v) && !Has(l, end)
    ensures r == Drop(v, n) && Suffix(l, sort, r) && Result(l, sort, end, n) == HeadOr(r, end)
  {
    if n == 0 {
      StartIs(l, sort, end, v);
      r := v;
    } else {
      var u := ResultsFrom(l, sort, end, n - 1, v);
      DropNext(v, n - 1, n, u);
      r := u.tail;
      ResultStep(l, sort, end, n - 1, n, u, r);
    }
  }

  /** The results are those of `Visit`, one after another. */
  lemma {:induction false} ResultsAre(l: List, sort: Sort, end: nat, n: nat, v: List)
    requires Ranked(l, sort) && v == Visit(l, sort) && n <= Size(v) && !Has(l, end)
    ensures Result(l, sort, end, n) == HeadOr(Drop(v, n), end) && Suffix(l, sort, Drop(v, n))
  {
    var r := ResultsFrom(l, sort, end, n, v);
  }

  lemma RankedStops(l: List, sort: Sort, end: nat)
    requires Ranked(l, sort) && !Has(l, end)
    ensures Stops(l, sort, end)
  {
    var n := Size(Visit(l, sort));
    ResultsAre(l, sort, end, n, Visit(l, sort));
    DropAll(Visit(l, sort));
    assert Result(l, sort, end, n) == end;
  }

  // ---------------------------------------------------------------- no order at all

  /** Three candidates, each below the next and the last below the first: the results go round and never stop. */
  lemma {:induction false} NeverStops(a: nat, b: nat, c: nat, sort: Sort, end: nat, n: nat)
    requires sort(a, b) < 0 && sort(b, a) > 0 && sort(b, c) < 0 && sort(c, b) > 0 && sort(c, a) < 0 && sort(a, c) > 0
    requires sort(a, a) <= 0 && sort(b, b) <= 0 && sort(c, c) <= 0 && a != end && b != end && c != end
    ensures Result(Cons(a, Cons(b, Cons(c, Nil))), sort, end, n)
            == (if n % 3 == 0 then c else if n % 3 == 1 then a else b)
  {
    var l := Cons(a, Cons(b, Cons(c, Nil)));
    if n == 0 {
      assert Pick(c, Nil, sort) == Pick(a, Cons(c, Nil), sort) == Pick(a, l.tail, sort);
    } else {
      NeverStops(a, b, c, sort, end, n - 1);
      RoundAbout(a, b, c, sort, end);
    }
  }

  lemma RoundAbout(a: nat, b: nat, c: nat, sort: Sort, end: nat)
    requires sort(a, b) < 0 && sort(b, a) > 0 && sort(b, c) < 0 && sort(c, b) > 0 && sort(c, a) < 0 && sort(a, c) > 0
    requires sort(a, a) <= 0 && sort(b, b) <= 0 && sort(c, c) <= 0
    ensures var l := Cons(a, Cons(b, Cons(c, Nil)));
            Next(l, c, sort, end) == a && Next(l, a, sort, end) == b && Next(l, b, sort, end) == c
  {
    assert Above(Nil, a, sort) == Above(Nil, b, sort) == Above(Nil, c, sort) == Nil;
    assert Above(Cons(c, Nil), c, sort) == Nil && Above(Cons(c, Nil), a, sort) == Nil;
    assert Above(Cons(c, Nil), b, sort) == Cons(c, Nil);
    assert Above(Cons(b, Cons(c, Nil)), c, sort) == Nil;
    assert Above(Cons(b, Cons(c, Nil)), a, sort) == Cons(b, Nil);
    assert Above(Cons(b, Cons(c, Nil)), b, sort) == Cons(c, Nil);
  }
}
