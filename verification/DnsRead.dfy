/**
 The cursors that dns.c moves over names in a packet: one label at a time (`dns_l_expand`,
 `dns_l_skip`) and one name at a time (`dns_d_expand`, `dns_d_skip`), each as a loop over
 the packet's octets, and what they find in terms of `Walk`.
 */
module DnsRead {
  import opened Bytes
  import opened DnsWalk

  // ---------------------------------------------------------------- one label

  /** The label at or behind `p` after `n` pointers, and the offset that follows it. */
  function LExpand(d: seq<byte>, p: nat, n: nat): (Label, nat)
    decreases if n < MAX_POINTERS then MAX_POINTERS - n else 0
  {
    if p >= |d| then ([], |d|)
    else
      var len := d[p] % 64;
      var kind := d[p] / 64;
      if kind == 0 then
        if |d| - (p + 1) < len then ([], |d|)
        else (d[p + 1..p + 1 + len], p + 1 + len)
      else if kind != 3 || n + 1 > MAX_POINTERS || |d| - p < 2 then ([], |d|)
      else LExpand(d, Target(d, p), n + 1)
  }

  /** `dns_l_expand`: an empty label stands for the end of the name and for every error. */
  method ExpandLabel(d: seq<byte>, src: nat) returns (l: Label, x: nat)
    ensures (l, x) == LExpand(d, src, 0)
  {
    var p: nat, n: nat := src, 0;
    while p < |d| && d[p] / 64 == 3
      invariant n <= MAX_POINTERS
      invariant LExpand(d, p, n) == LExpand(d, src, 0)
      decreases MAX_POINTERS - n
    {
      n := n + 1;
      if n > MAX_POINTERS || |d| - p < 2 {
        return [], |d|;
      }
      p := Target(d, p);
    }
    if p >= |d| || d[p] / 64 != 0 {
      return [], |d|;
    }
    var len := d[p] % 64;
    p := p + 1;
    if |d| - p < len {
      return [], |d|;
    }
    l, x := d[p..p + len], p + len;
  }

  /** Readings on which the code's pointer limit and the one in `v` agree. */
  predicate SameLimit(v: View, r: Reading) {
    r.Name? && (v.cap == MAX_POINTERS || (v.cap <= MAX_POINTERS && r.ok))
  }

  /** Reading one label splits the name at that label. */
  lemma {:induction false} ExpandStep(v: View, p: nat, hi: nat, n: nat)
    requires v.Valid() && hi <= |v.data| && SameLimit(v, Walk(v, p, hi, n))
    ensures var (l, x) := LExpand(v.data, p, n); var r := Walk(v, p, hi, n);
            match r.labels
            case Nil => l == []
            case More(first, rest) => l == first && l != [] && NameAt(v, x) == Name(rest, r.ok)
    decreases hi, |v.data| - p
  {
    if p < hi {
      var len := v.data[p] % 64;
      var kind := v.data[p] / 64;
      if kind == 0 && len != 0 && |v.data| - (p + 1) >= len {
        WalkRelax(v, p + 1 + len, hi, 0, v.lo, |v.data|);
      } else if kind == 3 && n + 1 <= v.cap && |v.data| - p >= 2 {
        ExpandStep(v, Target(v.data, p), p, n + 1);
      }
    }
  }

  /** Behind a label read from a well-ended name another well-ended name begins. */
  lemma {:induction false} ExpandKeepsEnd(v: View, p: nat, hi: nat, n: nat)
    requires v.Valid() && v.cap >= MAX_POINTERS && hi <= |v.data| && Walk(v, p, hi, n).Name? && Walk(v, p, hi, n).ok
    requires LExpand(v.data, p, n).0 != []
    ensures v.lo <= p < hi
    ensures var x := LExpand(v.data, p, n).1; NameAt(v, x).Name? && NameAt(v, x).ok
    decreases hi, |v.data| - p
  {
    var len := v.data[p] % 64;
    var kind := v.data[p] / 64;
    if kind == 0 {
      WalkRelax(v, p + 1 + len, hi, 0, v.lo, |v.data|);
    } else {
      ExpandKeepsEnd(v, Target(v.data, p), p, n + 1);
    }
  }

  // ---------------------------------------------------------------- where a name stops in place

  /** After the zero octet or the first pointer of the name at `p`. */
  function Skip(d: seq<byte>, p: nat): (q: nat)
    ensures q <= |d| && (p < |d| ==> p < q)
    decreases |d| - p
  {
    if p >= |d| then |d|
    else
      var len := d[p] % 64;
      var kind := d[p] / 64;
      if kind == 0 then
        if len == 0 then p + 1
        else if |d| - (p + 1) > len then Skip(d, p + 1 + len)
        else |d|
      else if kind != 3 || |d| - p < 2 then |d|
      else p + 2
  }

  /** `dns_d_skip`. */
  method SkipName(d: seq<byte>, src: nat) returns (q: nat)
    ensures q == Skip(d, src)
  {
    var p := src;
    while p < |d|
      invariant Skip(d, p) == Skip(d, src)
      decreases |d| - p
    {
      var kind := d[p] / 64;
      if kind == 0 {
        var len := d[p] % 64;
        p := p + 1;
        if len == 0 {
          return p;
        } else if |d| - p > len {
          p := p + len;
        } else {
          return |d|;
        }
      } else if kind == 3 {
        return if |d| - p < 2 then |d| else p + 2;
      } else {
        return |d|;
      }
    }
    q := |d|;
  }

  // ---------------------------------------------------------------- a name as text

  const DOT: byte := 46

  /** `out` with the given labels after it, each ended by a dot. */
  function Emit(out: seq<byte>, labels: Labels): seq<byte>
    decreases labels
  {
    match labels
    case Nil => out
    case More(l, rest) => Emit(out + (l + [DOT]), rest)
  }

  /** A name as text, anchored by a final dot; the root is a dot of its own. */
  function Text(labels: Labels): seq<byte> {
    if labels == Nil then [DOT] else Emit([], labels)
  }

  /** `buf` begins with as much of `s` as it has room for: bounded writes drop the rest. */
  predicate Shows(buf: seq<byte>, s: seq<byte>) {
    forall i :: 0 <= i < |s| && i < |buf| ==> buf[i] == s[i]
  }

  /** What `buf` holds once `s` was written to it with bounded writes and NUL-terminated. */
  predicate HoldsText(buf: seq<byte>, s: seq<byte>) {
    |buf| > 0 ==> var k := if |s| < |buf| then |s| else |buf| - 1; buf[..k] == s[..k] && buf[k] == 0
  }

  /** One octet at `at`, if there is room for it. */
  method PutBounded(dst: array<byte>, at: nat, c: byte, ghost s: seq<byte>)
    requires at == |s| && Shows(dst[..], s)
    modifies dst
    ensures Shows(dst[..], s + [c])
  {
    if at < dst.Length {
      dst[at] := c;
    }
  }

  /** The `memcpy` of a label, cut off at the end of the buffer. */
  method CopyBounded(dst: array<byte>, at: nat, l: Label, ghost s: seq<byte>)
    requires at == |s| && Shows(dst[..], s)
    modifies dst
    ensures Shows(dst[..], s + l)
  {
    if at < dst.Length {
      var k := if |l| < dst.Length - at then |l| else dst.Length - at;
      forall i | 0 <= i < k {
        dst[at + i] := l[i];
      }
      assert forall i :: 0 <= i < at ==> dst[i] == old(dst[..])[i];
    }
  }

  method Terminate(dst: array<byte>, at: nat, ghost s: seq<byte>)
    requires at == |s| && Shows(dst[..], s)
    modifies dst
    ensures HoldsText(dst[..], s)
  {
    if dst.Length > 0 {
      var k := if at < dst.Length then at else dst.Length - 1;
      assert forall i :: 0 <= i < k ==> dst[..][i] == s[i];
      dst[k] := 0;
    }
  }

  method EmitEnd(dst: array<byte>, at: nat, ghost out: seq<byte>) returns (count: nat)
    requires at == |out| && Shows(dst[..], out)
    modifies dst
    ensures var text := if out == [] then [DOT] else out; count == |text| && HoldsText(dst[..], text)
  {
    count := at;
    if count == 0 {
      PutBounded(dst, count, DOT, []);
      count := count + 1;
    }
    Terminate(dst, count, if out == [] then [DOT] else out);
  }

  lemma {:induction false} EmitGrows(out: seq<byte>, labels: Labels)
    ensures |out| <= |Emit(out, labels)|
    ensures labels != Nil ==> |out| < |Emit(out, labels)|
    decreases labels
  {
    if labels != Nil {
      EmitGrows(out + (labels.first + [DOT]), labels.rest);
    }
  }

  /** `dns_d_expand` at `p`, with the text `out` behind it, of a name that reads `all`. */
  ghost predicate Expanding(d: seq<byte>, all: Reading, out: seq<byte>, p: nat, hi: nat, n: nat) {
    hi <= |d| && n <= MAX_POINTERS && all.Name?
    && var r := Walk(View(d, 0, MAX_POINTERS), p, hi, n);
       r.Name? && r.ok == all.ok && Emit(out, r.labels) == Emit([], all.labels)
  }

  predicate AtLabel(d: seq<byte>, p: nat) {
    p < |d| && d[p] / 64 == 0 && d[p] % 64 != 0
  }

  predicate AtPointer(d: seq<byte>, p: nat) {
    p < |d| && d[p] / 64 == 3
  }

  lemma OverLabel(d: seq<byte>, all: Reading, out: seq<byte>, p: nat, hi: nat, n: nat)
    requires Expanding(d, all, out, p, hi, n) && AtLabel(d, p)
    ensures p < hi
    ensures if |d| - (p + 1) < d[p] % 64 then !all.ok
            else Expanding(d, all, out + (d[p + 1..p + 1 + d[p] % 64] + [DOT]), p + 1 + d[p] % 64, hi, 0)
  {
  }

  lemma OverPointer(d: seq<byte>, all: Reading, out: seq<byte>, p: nat, hi: nat, n: nat)
    requires Expanding(d, all, out, p, hi, n) && AtPointer(d, p)
    ensures p < hi
    ensures if n + 1 > MAX_POINTERS || |d| - p < 2 then !all.ok else Expanding(d, all, out, Target(d, p), p, n + 1)
  {
  }

  lemma AtEnd(d: seq<byte>, all: Reading, out: seq<byte>, p: nat, hi: nat, n: nat)
    requires Expanding(d, all, out, p, hi, n) && !AtLabel(d, p) && !AtPointer(d, p)
    ensures all.ok <==> p < |d| && d[p] == 0
    ensures all.ok ==> Text(all.labels) == if out == [] then [DOT] else out
  {
    EmitGrows([], all.labels);
  }

  /** The text of one label goes to `dst`. */
  method CopyLabel(dst: array<byte>, dstp: nat, l: Label, ghost out: seq<byte>)
    requires dstp == |out| && Shows(dst[..], out)
    modifies dst
    ensures Shows(dst[..], out + (l + [DOT]))
  {
    CopyBounded(dst, dstp, l, out);
    PutBounded(dst, dstp + |l|, DOT, out + l);
    assert out + l + [DOT] == out + (l + [DOT]);
  }

  /**
   `dns_d_expand`, for names whose pointers descend (on others the code may not
   return).  The result counts the octets of the name even where they do not fit; 0 is DNS_EILLEGAL.
   */
  method ExpandName(dst: array<byte>, d: seq<byte>, src: nat) returns (count: nat)
    requires NameAt(View(d, 0, MAX_POINTERS), src).Name?
    modifies dst
    ensures var r := NameAt(View(d, 0, MAX_POINTERS), src);
            if r.ok then count == |Text(r.labels)| && HoldsText(dst[..], Text(r.labels)) else count == 0
  {
    ghost var all := NameAt(View(d, 0, MAX_POINTERS), src);
    ghost var out: seq<byte> := [];
    ghost var hi: nat := |d|;
    var p: nat, n: nat, dstp: nat := src, 0, 0;
    while p < |d| && (d[p] / 64 == 3 || (d[p] / 64 == 0 && d[p] % 64 != 0))
      invariant Expanding(d, all, out, p, hi, n) && dstp == |out| && Shows(dst[..], out)
      decreases hi, |d| - p
    {
      if d[p] / 64 == 0 {
        OverLabel(d, all, out, p, hi, n);
        var len := d[p] % 64;
        if |d| - (p + 1) < len {
          Terminate(dst, dstp, out);
          return 0;
        }
        CopyLabel(dst, dstp, d[p + 1..p + 1 + len], out);
        out := out + (d[p + 1..p + 1 + len] + [DOT]);
        p := p + 1 + len;
        dstp := dstp + len + 1;
        n := 0;
      } else {
        OverPointer(d, all, out, p, hi, n);
        n := n + 1;
        if n > MAX_POINTERS || |d| - p < 2 {
          Terminate(dst, dstp, out);
          return 0;
        }
        hi := p;
        p := Target(d, p);
      }
    }
    AtEnd(d, all, out, p, hi, n);
    if p < |d| && d[p] == 0 {
      count := EmitEnd(dst, dstp, out);
    } else {
      Terminate(dst, dstp, out);
      count := 0;
    }
  }

  // ---------------------------------------------------------------- the limit on pointers

  /** The label `a` at offset 12, and behind it `n` pointers, each to the one before and the first to the label. */
  predicate PointerChain(d: seq<byte>, n: nat) {
    n < 8000 && 15 + 2 * n <= |d| && d[12] == 1 && d[13] == 97 && d[14] == 0
    && forall i {:trigger ChainAt(i)} :: 0 <= i < n ==>
         d[ChainAt(i + 1)] == 0xC0 + ChainAt(i) / 256 && d[ChainAt(i + 1) + 1] == ChainAt(i) % 256
  }

  /** Where the chain is entered to follow `i` pointers. */
  function ChainAt(i: nat): nat {
    if i == 0 then 12 else 13 + 2 * i
  }

  lemma ChainStart(d: seq<byte>, hi: nat, k: nat)
    requires 15 <= hi <= |d| && d[12] == 1 && d[13] == 97 && d[14] == 0
    ensures Walk(View(d, 0, MAX_POINTERS), 12, hi, k) == Name(More([97], Nil), true)
  {
    var v := View(d, 0, MAX_POINTERS);
    assert d[13..14] == [97];
    assert Walk(v, 14, hi, 0) == Name(Nil, true);
  }

  lemma ChainStep(d: seq<byte>, p: nat, t: nat, hi: nat, k: nat)
    requires t < p < hi <= |d| && p + 2 <= |d| && t < 0x4000 && d[p] == 0xC0 + t / 256 && d[p + 1] == t % 256
    ensures var v := View(d, 0, MAX_POINTERS);
            Walk(v, p, hi, k) == if k < MAX_POINTERS then Walk(v, t, p, k + 1) else Name(Nil, false)
  {
    assert Target(d, p) == t;
  }

  lemma {:induction false} ChainWalk(d: seq<byte>, n: nat, i: nat, hi: nat, k: nat)
    requires PointerChain(d, n) && i <= n && ChainAt(i + 1) <= hi <= |d| && k <= 127
    ensures var r := Walk(View(d, 0, MAX_POINTERS), ChainAt(i), hi, k);
            r.Name? && (r.ok <==> k + i <= 127) && (r.ok ==> r.labels == More([97], Nil))
    decreases i
  {
    if i == 0 {
      ChainStart(d, hi, k);
    } else {
      var j := i - 1;
      assert d[ChainAt(j + 1)] == 0xC0 + ChainAt(j) / 256;
      ChainStep(d, ChainAt(i), ChainAt(j), hi, k);
      if k + 1 <= 127 {
        ChainWalk(d, n, j, ChainAt(i), k + 1);
      }
    }
  }

  /** As many as 127 pointers in a row are followed, and no more. */
  lemma {:induction false} PointerLimit(d: seq<byte>, n: nat)
    requires PointerChain(d, n)
    ensures var r := NameAt(View(d, 0, MAX_POINTERS), ChainAt(n)); r.Name? && (r.ok <==> n <= 127)
  {
    ChainWalk(d, n, n, |d|, 0);
  }
}
