/**
 The compression dictionary of a packet: sixteen offsets of names (`dns_p_dictadd`), and what
 pushing names does to it.
 */
module DnsDict {
  import opened Wrappers
  import opened Bytes
  import opened DnsWalk
  import opened DnsRead
  import opened DnsCompress
  import opened DnsCompressSound

  /** `dns_l_skip`: the offset behind the label at `p`; the end for a zero octet, a pointer and every error. */
  function LSkip(d: seq<byte>, p: nat): (q: nat)
    ensures q <= |d| && (p < |d| ==> p < q)
  {
    if p >= |d| || d[p] / 64 != 0 then |d|
    else
      var len := d[p] % 64;
      if len == 0 || |d| - (p + 1) < len then |d| else p + 1 + len
  }

  /** The pointer that ends the labels standing at `dn`; a name that is nothing but a pointer does not count. */
  function InlineTarget(d: seq<byte>, dn: nat, p: nat): Option<nat>
    decreases |d| - p
  {
    if p >= |d| then None
    else if d[p] / 64 == 3 && |d| - p >= 2 && p != dn then Some(Target(d, p))
    else InlineTarget(d, dn, LSkip(d, p))
  }

  function IndexOf(u: seq<nat>, t: nat): (i: nat)
    ensures i <= |u| && (i < |u| ==> u[i] == t) && (i == |u| ==> t !in u)
  {
    if u == [] || u[0] == t then 0 else 1 + IndexOf(u[1..], t)
  }

  /** The new name replaces the entry it points to, or takes the first free slot, or is not recorded. */
  function DictAdded(d: seq<byte>, dict: seq<nat>, dn: nat): (r: seq<nat>)
    ensures |r| == |dict|
  {
    var u, t := Used(dict), InlineTarget(d, dn, dn);
    if t.Some? && t.value in u then dict[IndexOf(u, t.value) := dn]
    else if |u| < |dict| then dict[|u| := dn]
    else dict
  }

  /** The slot of the first entry that is `t`, if there is one before the first zero. */
  method FindEntry(dict: array<nat>, t: nat) returns (i: nat)
    ensures i == IndexOf(Used(dict[..]), t)
    ensures i < |Used(dict[..])| <==> i < dict.Length && dict[i] != 0
  {
    ghost var u := Used(dict[..]);
    i := 0;
    assert u[0..] == u;
    while i < dict.Length && dict[i] != 0 && dict[i] != t
      invariant i <= |u| && IndexOf(u, t) == i + IndexOf(u[i..], t)
      decreases |u| - i
    {
      assert u[i..][1..] == u[i + 1..];
      i := i + 1;
    }
  }

  method FirstFree(dict: array<nat>) returns (i: nat)
    ensures i == |Used(dict[..])|
  {
    i := 0;
    while i < dict.Length && dict[i] != 0
      invariant i <= |Used(dict[..])|
      decreases dict.Length - i
    {
      i := i + 1;
    }
  }

  /** `dns_p_dictadd`. */
  method DictAdd(d: seq<byte>, dict: array<nat>, dn: nat)
    modifies dict
    ensures dict[..] == DictAdded(d, old(dict[..]), dn)
  {
    ghost var u, t := Used(dict[..]), InlineTarget(d, dn, dn);
    var lp := dn;
    while lp < |d|
      invariant dict[..] == old(dict[..])
      invariant InlineTarget(d, dn, lp) == t || (lp >= |d| && t.Some? && t.value !in u)
      decreases |d| - lp
    {
      if d[lp] / 64 == 3 && |d| - lp >= 2 && lp != dn {
        var i := FindEntry(dict, Target(d, lp));
        if i < dict.Length && dict[i] != 0 {
          dict[i] := dn;
          return;
        }
      }
      if d[lp] / 64 != 0 || d[lp] % 64 == 0 || |d| - (lp + 1) < d[lp] % 64 {
        lp := |d|;
      } else {
        lp := lp + 1 + d[lp] % 64;
      }
    }
    var i := FirstFree(dict);
    if i < dict.Length {
      dict[i] := dn;
    }
  }

  // ---------------------------------------------------------------- what a push does to the dictionary

  predicate ZeroTail(dict: seq<nat>) {
    forall i :: |Used(dict)| <= i < |dict| ==> dict[i] == 0
  }

  lemma {:induction false} UsedIs(dict: seq<nat>, n: nat)
    requires n <= |dict| && (forall i :: 0 <= i < n ==> dict[i] != 0) && (n < |dict| ==> dict[n] == 0)
    ensures Used(dict) == dict[..n]
  {
    if n > 0 {
      UsedIs(dict[1..], n - 1);
    }
  }

  /** Entries in use after a push: those before, and the new name. */
  lemma UsedAfter(d: seq<byte>, dict: seq<nat>, dn: nat)
    requires ZeroTail(dict) && dn != 0
    ensures var dict' := DictAdded(d, dict, dn);
            ZeroTail(dict') && |Used(dict)| <= |Used(dict')|
            && forall i :: 0 <= i < |Used(dict')| ==> dict'[i] == dn || (i < |Used(dict)| && dict'[i] == dict[i])
  {
    var dict' := DictAdded(d, dict, dn);
    var n := |Used(dict)|;
    var t := InlineTarget(d, dn, dn);
    if t.Some? && t.value in Used(dict) {
      UsedIs(dict', n);
    } else if n < |dict| {
      UsedIs(dict', n + 1);
    }
  }

  /** No entry is pending: all of them lie inside the packet. */
  predicate Settled(d: seq<byte>, dict: seq<nat>) {
    forall i :: 0 <= i < |Used(dict)| ==> dict[i] < |d|
  }

  /** After a name was written at the old end, the dictionary is sound for the longer packet, and settled. */
  lemma {:induction false} PushKeepsSound(d: seq<byte>, dict: seq<nat>, d': seq<byte>)
    requires SoundDict(d, dict) && ZeroTail(dict) && |d| < |d'| && SameBody(d', d) && ReadsOk(Unlimited(d'), |d|)
    ensures var dict' := DictAdded(d', dict, |d|); SoundDict(d', dict') && ZeroTail(dict') && Settled(d', dict')
  {
    UsedAfter(d', dict, |d|);
    var dict' := DictAdded(d', dict, |d|);
    forall i | 0 <= i < |Used(dict')| ensures dict'[i] < |d'| && ReadsOk(Unlimited(d'), dict'[i]) {
      if dict'[i] != |d| {
        GrowKeepsName(d, |d| + MAX_POINTERS, dict'[i], d', |d'| + MAX_POINTERS);
      }
    }
  }

  /** `d'` goes on where `d` ends; only header octets may differ below. */
  predicate SameBody(d': seq<byte>, d: seq<byte>) {
    12 <= |d| <= |d'| && forall i :: 12 <= i < |d| ==> d'[i] == d[i]
  }

  /** Names read earlier read the same in the longer packet. */
  lemma {:induction false} GrowKeepsName(d: seq<byte>, cap: nat, p: nat, d': seq<byte>, cap': nat)
    requires ReadsOk(View(d, 12, cap), p) && SameBody(d', d) && cap <= cap'
    ensures ReadsOk(View(d', 12, cap'), p) && NameAt(View(d', 12, cap'), p) == NameAt(View(d, 12, cap), p)
  {
    WalkExtends(View(d', 12, cap'), View(d, 12, cap), p, |d|, 0);
    WalkRelax(View(d', 12, cap'), p, |d|, 0, 12, |d'|);
  }

  /** Octets behind a settled packet, and its header, mean nothing to its names. */
  lemma GrowKeepsSound(d: seq<byte>, dict: seq<nat>, d': seq<byte>)
    requires SoundDict(d, dict) && Settled(d, dict) && SameBody(d', d)
    ensures SoundDict(d', dict) && Settled(d', dict)
  {
    forall i | 0 <= i < |Used(dict)| ensures ReadsOk(Unlimited(d'), dict[i]) {
      GrowKeepsName(d, |d| + MAX_POINTERS, dict[i], d', |d'| + MAX_POINTERS);
    }
  }

  lemma PushKeepsClean(d: seq<byte>, dict: seq<nat>, cap: nat, d': seq<byte>)
    requires CleanDict(d, dict, cap) && ZeroTail(dict) && |d| < |d'| && SameBody(d', d)
    requires ReadsOk(View(d', 12, cap + 1), |d|) && Clean(LabelsAt(View(d', 12, cap + 1), |d|))
    ensures CleanDict(d', DictAdded(d', dict, |d|), cap + 1)
  {
    UsedAfter(d', dict, |d|);
    var dict' := DictAdded(d', dict, |d|);
    forall i | 0 <= i < |Used(dict')|
      ensures ReadsOk(View(d', 12, cap + 1), dict'[i]) && Clean(LabelsAt(View(d', 12, cap + 1), dict'[i]))
    {
      if dict'[i] != |d| {
        GrowKeepsName(d, cap, dict'[i], d', cap + 1);
      }
    }
  }

  lemma GrowKeepsClean(d: seq<byte>, dict: seq<nat>, cap: nat, d': seq<byte>)
    requires CleanDict(d, dict, cap) && Settled(d, dict) && SameBody(d', d)
    ensures CleanDict(d', dict, cap)
  {
    forall i | 0 <= i < |Used(dict)|
      ensures ReadsOk(View(d', 12, cap), dict[i]) && Clean(LabelsAt(View(d', 12, cap), dict[i]))
    {
      GrowKeepsName(d, cap, dict[i], d', cap);
    }
  }

  /**
   A push that fails once its owner name was recorded takes the packet back to its old end; the
   entry for that name is then pending, which is harmless: the next name goes to the same offset.
   */
  lemma {:induction false} RollbackKeepsSound(d: seq<byte>, dict: seq<nat>, d': seq<byte>)
    requires SoundDict(d, dict) && ZeroTail(dict)
    ensures var dict' := DictAdded(d', dict, |d|); SoundDict(d, dict') && ZeroTail(dict')
  {
    UsedAfter(d', dict, |d|);
  }
}
