/**
 Doubly linked lists on the heap, relinked in place (`belle_sip_list`), and the main loop's list of sources.
 */
module Lists {
  class Link {
    var next: Link?
    var prev: Link?
    var data: int

    constructor (data: int)
      ensures next == null && prev == null && this.data == data
    {
      next, prev := null, null;
      this.data := data;
    }
  }

  function First(s: seq<Link>): Link? {
    if s == [] then null else s[0]
  }

  function Next(s: seq<Link>, i: nat): Link? {
    if i + 1 < |s| then s[i + 1] else null
  }

  function Prev(s: seq<Link>, i: nat): Link? {
    if 0 < i <= |s| then s[i - 1] else null
  }

  /** The list that begins at `h` is `s`: no link twice, and next and prev are each other's inverse. */
  ghost predicate Chain(h: Link?, s: seq<Link>)
    reads s
  {
    h == First(s)
    && (forall i, j :: 0 <= i < j < |s| ==> s[i] != s[j])
    && (forall i {:trigger s[i].next} {:trigger s[i].prev} :: 0 <= i < |s| ==>
                                                              s[i].next == Next(s, i) && s[i].prev == Prev(s, i))
  }

  function Datas(s: seq<Link>): seq<int>
    reads s
  {
    seq(|s|, i requires 0 <= i < |s| reads s => s[i].data)
  }

  /** The walk to the last link. */
  method Last(h: Link, ghost s: seq<Link>) returns (it: Link)
    requires Chain(h, s)
    ensures s != [] && it == s[|s| - 1]
  {
    it := h;
    ghost var i := 0;
    while it.next != null
      invariant 0 <= i < |s| && it == s[i]
      decreases |s| - i
    {
      assert s[i].next == Next(s, i);
      it := it.next;
      i := i + 1;
    }
    assert s[i].next == Next(s, i);
  }

  /** `belle_sip_list_append_link` and `belle_sip_list_concat`: `second` may be a whole list. */
  method Concat(first: Link?, second: Link?, ghost s: seq<Link>, ghost t: seq<Link>) returns (h: Link?)
    requires Chain(first, s) && Chain(second, t) && forall i, j :: 0 <= i < |s| && 0 <= j < |t| ==> s[i] != t[j]
    modifies if s == [] || t == [] then {} else {s[|s| - 1], t[0]}
    ensures Chain(h, s + t) && Datas(s + t) == old(Datas(s + t))
  {
    if first == null {
      assert s + t == t;
      return second;
    }
    if second == null {
      assert s + t == s;
      return first;
    }
    var it := Last(first, s);
    it.next := second;
    second.prev := it;
    h := first;
  }

  /** `belle_sip_list_prepend`. */
  method Prepend(list: Link?, data: int, ghost s: seq<Link>) returns (h: Link)
    requires Chain(list, s)
    modifies if s == [] then {} else {s[0]}
    ensures fresh(h) && Chain(h, [h] + s) && h.data == data && Datas(s) == old(Datas(s))
  {
    h := new Link(data);
    if list != null {
      h.next := list;
      list.prev := h;
    }
  }

  /** Links that were joined past the `k`-th one are a list without it. */
  lemma WithoutLink(s: seq<Link>, k: nat, i: nat)
    requires k < |s| && i + 1 < |s|
    ensures var r := s[..k] + s[k + 1..];
            |r| == |s| - 1 && r[i] == s[if i < k then i else i + 1]
            && Next(r, i) == (if i + 1 == k then Next(s, k) else Next(s, if i < k then i else i + 1))
            && Prev(r, i) == (if i == k then Prev(s, k) else Prev(s, if i < k then i else i + 1))
  {
  }

  lemma StillApart(s: seq<Link>, k: nat)
    requires k < |s| && forall i, j :: 0 <= i < j < |s| ==> s[i] != s[j]
    ensures var r := s[..k] + s[k + 1..]; forall i, j :: 0 <= i < j < |r| ==> r[i] != r[j]
  {
  }

  /** The relinking of `belle_sip_list_remove_link`: `p` and `n` are on either side of `elem`. */
  method Detach(list: Link?, elem: Link, ghost p: Link?, ghost n: Link?) returns (h: Link?)
    requires elem.prev == p && elem.next == n && (elem == list <==> p == null) && p != elem && n != elem
             && (p != null ==> p != n)
    modifies elem, if p == null then {} else {p}, if n == null then {} else {n}
    ensures elem.next == null && elem.prev == null && elem.data == old(elem.data) && h == if p == null then n else list
    ensures p != null ==> p.next == n && p.prev == old(p.prev) && p.data == old(p.data)
    ensures n != null ==> n.prev == p && n.next == old(n.next) && n.data == old(n.data)
  {
    if elem == list {
      h := elem.next;
      elem.prev := null;
      elem.next := null;
      if h != null {
        h.prev := null;
      }
      return;
    }
    elem.prev.next := elem.next;
    if elem.next != null {
      elem.next.prev := elem.prev;
    }
    elem.next := null;
    elem.prev := null;
    h := list;
  }

  /** `belle_sip_list_remove_link`, of the `k`-th link. */
  method RemoveLink(list: Link?, elem: Link, ghost s: seq<Link>, ghost k: nat) returns (h: Link?)
    requires Chain(list, s) && k < |s| && s[k] == elem
    modifies s
    ensures Chain(h, s[..k] + s[k + 1..]) && elem.next == null && elem.prev == null
    ensures forall i :: 0 <= i < |s| ==> s[i].data == old(s[i].data)
  {
    ghost var p, n := Prev(s, k), Next(s, k);
    assert s[k].next == n && s[k].prev == p;
    h := Detach(list, elem, p, n);
    ghost var r := s[..k] + s[k + 1..];
    forall i | 0 <= i < |r| ensures r[i].next == Next(r, i) && r[i].prev == Prev(r, i) {
      WithoutLink(s, k, i);
    }
    StillApart(s, k);
  }

  // ---------------------------------------------------------------- sorted lists

  /** A comparison that orders any two data, ties allowed. */
  ghost predicate TotalPreorder(cmp: (int, int) -> int) {
    (forall a, b {:trigger cmp(a, b)} :: cmp(a, b) <= 0 || cmp(b, a) <= 0)
    && (forall a, b, c {:trigger cmp(a, b), cmp(b, c)} :: cmp(a, b) <= 0 && cmp(b, c) <= 0 ==> cmp(a, c) <= 0)
  }

  lemma Through(cmp: (int, int) -> int, a: int, b: int, c: int)
    requires TotalPreorder(cmp) && cmp(a, b) <= 0 && cmp(b, c) <= 0
    ensures cmp(a, c) <= 0
  {
  }

  lemma Either(cmp: (int, int) -> int, a: int, b: int)
    requires TotalPreorder(cmp) && cmp(a, b) > 0
    ensures cmp(b, a) <= 0
  {
  }

  ghost predicate Sorted(d: seq<int>, cmp: (int, int) -> int) {
    forall i, j :: 0 <= i < j < |d| ==> cmp(d[i], d[j]) <= 0
  }

  /** Where the new element goes: before the first that it does not exceed. */
  function Place(d: seq<int>, x: int, cmp: (int, int) -> int): (k: nat)
    ensures k <= |d| && (k < |d| ==> cmp(x, d[k]) <= 0) && forall i :: 0 <= i < k ==> cmp(x, d[i]) > 0
  {
    if d == [] || cmp(x, d[0]) <= 0 then 0 else 1 + Place(d[1..], x, cmp)
  }

  function Inserted(d: seq<int>, x: int, cmp: (int, int) -> int): seq<int> {
    var k := Place(d, x, cmp);
    d[..k] + [x] + d[k..]
  }

  lemma InsertedAt(d: seq<int>, x: int, cmp: (int, int) -> int, i: nat)
    requires i <= |d|
    ensures var k, r := Place(d, x, cmp), Inserted(d, x, cmp);
            |r| == |d| + 1 && r[i] == if i < k then d[i] else if i == k then x else d[i - 1]
  {
  }

  /** The new element is in order with each of the others. */
  lemma PlaceOrders(d: seq<int>, x: int, cmp: (int, int) -> int, i: nat)
    requires TotalPreorder(cmp) && Sorted(d, cmp) && i < |d|
    ensures if i < Place(d, x, cmp) then cmp(d[i], x) <= 0 else cmp(x, d[i]) <= 0
  {
    var k := Place(d, x, cmp);
    if i > k {
      Through(cmp, x, d[k], d[i]);
    } else if i < k {
      Either(cmp, x, d[i]);
    }
  }

  lemma PairInOrder(d: seq<int>, x: int, cmp: (int, int) -> int, i: nat, j: nat)
    requires TotalPreorder(cmp) && Sorted(d, cmp) && i < j < |Inserted(d, x, cmp)|
    ensures cmp(Inserted(d, x, cmp)[i], Inserted(d, x, cmp)[j]) <= 0
  {
    var k := Place(d, x, cmp);
    InsertedAt(d, x, cmp, i);
    InsertedAt(d, x, cmp, j);
    if i == k {
      PlaceOrders(d, x, cmp, j - 1);
    } else if j == k {
      PlaceOrders(d, x, cmp, i);
    }
  }

  /** Order is kept, and exactly one element is added. */
  lemma {:induction false} InsertedSorted(d: seq<int>, x: int, cmp: (int, int) -> int)
    requires TotalPreorder(cmp) && Sorted(d, cmp)
    ensures Sorted(Inserted(d, x, cmp), cmp) && multiset(Inserted(d, x, cmp)) == multiset(d) + multiset{x}
  {
    var k, r := Place(d, x, cmp), Inserted(d, x, cmp);
    forall i: nat, j: nat | i < j < |r| ensures cmp(r[i], r[j]) <= 0 {
      PairInOrder(d, x, cmp, i, j);
    }
    InsertedOne(d, k, x);
  }

  lemma InsertedOne(d: seq<int>, k: nat, x: int)
    requires k <= |d|
    ensures multiset(d[..k] + [x] + d[k..]) == multiset(d) + multiset{x}
  {
    assert d == d[..k] + d[k..];
  }

  /** The walk of `belle_sip_list_insert_sorted`: the first link that `data` does not exceed, and the one before. */
  method FindPlace(list: Link, data: int, cmp: (int, int) -> int, ghost s: seq<Link>)
    returns (it: Link?, previt: Link, ghost k: nat)
    requires Chain(list, s)
    ensures k == Place(Datas(s), data, cmp) <= |s| && it == (if k < |s| then s[k] else null)
    ensures previt == if k == 0 then list else s[k - 1]
  {
    ghost var d := Datas(s);
    k := 0;
    it := list;
    previt := list;
    assert d[0..] == d;
    while it != null && cmp(data, it.data) > 0
      invariant k <= |s| && it == (if k < |s| then s[k] else null) && previt == if k == 0 then list else s[k - 1]
      invariant Place(d, data, cmp) == k + Place(d[k..], data, cmp)
      decreases |s| - k
    {
      assert d[k..][1..] == d[k + 1..] && d[k] == s[k].data;
      assert s[k].next == Next(s, k);
      previt := it;
      it := it.next;
      k := k + 1;
    }
  }

  /** The relinking: `nelem` between `p` and `n`. */
  method Splice(nelem: Link, p: Link?, n: Link?)
    requires nelem.next == null && nelem.prev == null && p != nelem && n != nelem && (p != null ==> p != n)
    requires (p != null ==> p.next == n) && (n != null ==> n.prev == p)
    modifies nelem, if p == null then {} else {p}, if n == null then {} else {n}
    ensures nelem.next == n && nelem.prev == p && nelem.data == old(nelem.data)
    ensures p != null ==> p.next == nelem && p.prev == old(p.prev) && p.data == old(p.data)
    ensures n != null ==> n.prev == nelem && n.next == old(n.next) && n.data == old(n.data)
  {
    if n == null {
      if p != null {
        p.next := nelem;
        nelem.prev := p;
      }
    } else {
      nelem.prev := n.prev;
      nelem.next := n;
      if n.prev != null {
        n.prev.next := nelem;
      }
      n.prev := nelem;
    }
  }

  lemma WithLink(s: seq<Link>, x: Link, k: nat, i: nat)
    requires k <= |s| && i <= |s|
    ensures var r := s[..k] + [x] + s[k..];
            |r| == |s| + 1 && r[i] == (if i < k then s[i] else if i == k then x else s[i - 1])
            && Next(r, i) == (if i + 1 == k then x
                              else if i < k then Next(s, i)
                              else if i == k then (if k < |s| then s[k] else null)
                              else Next(s, i - 1))
            && Prev(r, i) == (if i <= k then Prev(s, i) else if i == k + 1 then x else Prev(s, i - 1))
  {
  }

  /** The new link before the `k`-th one, or behind the last. */
  method InsertAt(list: Link, nelem: Link, it: Link?, previt: Link, ghost s: seq<Link>, ghost k: nat) returns (h: Link)
    requires Chain(list, s) && k <= |s| && nelem !in s && nelem.next == null && nelem.prev == null
    requires it == (if k < |s| then s[k] else null) && previt == if k == 0 then list else s[k - 1]
    modifies nelem, s
    ensures Chain(h, s[..k] + [nelem] + s[k..]) && nelem.data == old(nelem.data)
    ensures forall i :: 0 <= i < |s| ==> s[i].data == old(s[i].data)
  {
    assert k > 0 ==> s[k - 1].next == Next(s, k - 1);
    assert k < |s| ==> s[k].prev == Prev(s, k);
    var p: Link? := if it == null then previt else it.prev;
    Splice(nelem, p, it);
    h := if p == null then nelem else list;
    ghost var r := s[..k] + [nelem] + s[k..];
    forall i | 0 <= i < |r| ensures r[i].next == Next(r, i) && r[i].prev == Prev(r, i) {
      WithLink(s, nelem, k, i);
    }
  }

  /** The data of the list it leaves: those before, with the new one in its place. */
  lemma InsertedDatas(s: seq<Link>, nelem: Link, k: nat, d: seq<int>, cmp: (int, int) -> int)
    requires k == Place(d, nelem.data, cmp) <= |s| && d == Datas(s)
    ensures Datas(s[..k] + [nelem] + s[k..]) == Inserted(d, nelem.data, cmp)
  {
  }

  /** `belle_sip_list_insert_sorted`: one link more, in its place; a sorted list stays sorted. */
  method InsertSorted(list: Link?, data: int, cmp: (int, int) -> int, ghost s: seq<Link>)
    returns (h: Link, nelem: Link, ghost r: seq<Link>)
    requires Chain(list, s)
    modifies s
    ensures fresh(nelem) && Chain(h, r) && Datas(r) == Inserted(old(Datas(s)), data, cmp)
    ensures var k := Place(old(Datas(s)), data, cmp); k <= |s| && r == s[..k] + [nelem] + s[k..]
    ensures TotalPreorder(cmp) && Sorted(old(Datas(s)), cmp) ==> Sorted(Datas(r), cmp)
  {
    ghost var d := Datas(s);
    ghost var k: nat;
    nelem := new Link(data);
    if list == null {
      h, k := nelem, 0;
      assert s[..0] + [nelem] + s[0..] == [nelem];
    } else {
      var it, previt;
      it, previt, k := FindPlace(list, data, cmp, s);
      h := InsertAt(list, nelem, it, previt, s, k);
    }
    r := s[..k] + [nelem] + s[k..];
    assert Datas(s) == d;
    InsertedDatas(s, nelem, k, d, cmp);
    if TotalPreorder(cmp) && Sorted(d, cmp) {
      InsertedSorted(d, data, cmp);
    }
  }
}
