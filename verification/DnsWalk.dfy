/**
 Compressed domain names in a packet (section 4.1.4 of RFC 1035).

 A name is a run of labels that ends in a zero octet or in a pointer to the rest
 of the name.  `Walk` is the reference reading of the name at an offset: it follows a
 pointer only to a lower offset, and the part it jumps to must itself lie below
 the pointer.  That bound is what makes reading terminate.
 */
module DnsWalk {
  import opened Bytes

  type Label = seq<byte>

  /** The most pointers that may follow one another (DNS_D_MAXPTRS). */
  const MAX_POINTERS: nat := 127
  const MAX_LABEL: nat := 63
  /** Pointers carry fourteen bits. */
  const MAX_TARGET: nat := 0x3fff

  /**
   The octets of a packet from `lo` to its end, in which names are read, and the number of
   consecutive pointers a reader puts up with (`cap`; the code's readers use 127).
   */
  datatype View = View(data: seq<byte>, lo: nat, cap: nat) {
    predicate Valid() {
      lo <= |data|
    }
  }

  datatype Labels = Nil | More(first: Label, rest: Labels)

  function ToSeq(ls: Labels): seq<Label> {
    match ls
    case Nil => []
    case More(l, rest) => [l] + ToSeq(rest)
  }

  /**
   What reading a name gives: its labels, and whether a proper end was reached.
   `Stray` is a name that leaves the descending discipline.
   */
  datatype Reading = Name(labels: Labels, ok: bool) | Stray

  function Cons(l: Label, r: Reading): Reading {
    if r.Stray? then Stray else Name(More(l, r.labels), r.ok)
  }

  function Target(d: seq<byte>, p: nat): (t: nat)
    requires p + 2 <= |d|
  {
    (d[p] as int % 64) * 256 + d[p + 1]
  }

  /** Reads the name at `p`, staying below `hi`, after `n` pointers in a row. */
  function Walk(v: View, p: nat, hi: nat, n: nat): Reading
    requires v.Valid() && hi <= |v.data|
    decreases hi, |v.data| - p
  {
    if p >= |v.data| then Name(Nil, false)
    else if p < v.lo || p >= hi then Stray
    else
      var len := v.data[p] % 64;
      var kind := v.data[p] / 64;
      if kind == 0 then
        if len == 0 then Name(Nil, true)
        else if |v.data| - (p + 1) < len then Name(Nil, false)
        else Cons(v.data[p + 1..p + 1 + len], Walk(v, p + 1 + len, hi, 0))
      else if kind != 3 then Name(Nil, false)
      else if n + 1 > v.cap || |v.data| - p < 2 then Name(Nil, false)
      else if Target(v.data, p) >= p then Stray
      else Walk(v, Target(v.data, p), p, n + 1)
  }

  function NameAt(v: View, p: nat): Reading
    requires v.Valid()
  {
    Walk(v, p, |v.data|, 0)
  }

  /** The labels of a name that is not stray. */
  function LabelsAt(v: View, p: nat): seq<Label>
    requires v.Valid() && NameAt(v, p).Name?
  {
    ToSeq(NameAt(v, p).labels)
  }

  /** A reading stays what it is when the bounds are relaxed. */
  lemma {:induction false} WalkRelax(v: View, p: nat, hi: nat, n: nat, lo': nat, hi': nat)
    requires v.Valid() && lo' <= v.lo && hi <= hi' <= |v.data|
    requires Walk(v, p, hi, n).Name?
    ensures Walk(v.(lo := lo'), p, hi', n) == Walk(v, p, hi, n)
    decreases hi, |v.data| - p
  {
    if p < hi && p >= v.lo {
      var len := v.data[p] % 64;
      var kind := v.data[p] / 64;
      if kind == 0 {
        if len != 0 && |v.data| - (p + 1) >= len {
          WalkRelax(v, p + 1 + len, hi, 0, lo', hi');
        }
      } else if kind == 3 && n + 1 <= v.cap && |v.data| - p >= 2 {
        WalkRelax(v, Target(v.data, p), p, n + 1, lo', p);
      }
    }
  }

  /** `v'` shows everything `v` shows. */
  predicate Extends(v': View, v: View) {
    v.Valid() && v'.Valid() && v'.lo == v.lo && v.cap <= v'.cap && |v.data| <= |v'.data|
    && forall i :: v.lo <= i < |v.data| ==> v'.data[i] == v.data[i]
  }

  /** A well-ended name reads the same in every packet that extends the one it was read in. */
  lemma {:induction false} WalkExtends(v': View, v: View, p: nat, hi: nat, n: nat)
    requires Extends(v', v) && hi <= |v.data|
    requires Walk(v, p, hi, n).Name? && Walk(v, p, hi, n).ok
    ensures Walk(v', p, hi, n) == Walk(v, p, hi, n)
    decreases hi, |v.data| - p
  {
    var len := v.data[p] % 64;
    var kind := v.data[p] / 64;
    assert v'.data[p] == v.data[p];
    if kind == 0 {
      if len != 0 {
        assert v.data[p + 1..p + 1 + len] == v'.data[p + 1..p + 1 + len];
        WalkExtends(v', v, p + 1 + len, hi, 0);
      }
    } else {
      assert Target(v.data, p) == Target(v'.data, p);
      WalkExtends(v', v, Target(v.data, p), p, n + 1);
    }
  }

  /** With fewer pointers allowed a well-ended name reads the same or is cut off, never astray. */
  lemma {:induction false} WalkCapped(v: View, p: nat, hi: nat, n: nat, cap: nat)
    requires v.Valid() && hi <= |v.data| && cap <= v.cap
    requires Walk(v, p, hi, n).Name? && Walk(v, p, hi, n).ok
    ensures Walk(v.(cap := cap), p, hi, n).Name?
    decreases hi, |v.data| - p
  {
    var len := v.data[p] % 64;
    var kind := v.data[p] / 64;
    var w := v.(cap := cap);
    if kind == 0 {
      if len != 0 {
        WalkCapped(v, p + 1 + len, hi, 0, cap);
        assert Walk(w, p + 1 + len, hi, 0).Name?;
      }
    } else {
      WalkCapped(v, Target(v.data, p), p, n + 1, cap);
      assert Walk(w, Target(v.data, p), p, n + 1).Name?;
    }
  }
}
