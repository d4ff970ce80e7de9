/**
 Name compression keeps names: what a pointer written by `dns_d_comp` stands for, and that
 the name written reads back.
 */
module DnsCompressSound {
  import opened Bytes
  import opened DnsWalk
  import opened DnsRead
  import opened DnsCompress

  /** Label for label equal up to ASCII case. */
  predicate SameNames(a: seq<Label>, b: seq<Label>) {
    |a| == |b| && forall i :: 0 <= i < |a| ==> CaseEq(a[i], b[i])
  }

  lemma {:induction false} MatchBoth(al: Label, rest: seq<Label>, bs: seq<Label>)
    requires al != [] && AllNonEmpty(rest) && bs != [] && Match(al, rest, bs) == ([], [])
    ensures CaseEq(al, bs[0]) && SameNames(bs[1..], rest)
    decreases bs
  {
    if rest != [] {
      MatchBoth(rest[0], rest[1..], bs[1..]);
      forall i | 0 <= i < |rest| ensures CaseEq(bs[1..][i], rest[i]) {
        if i > 0 {
          assert CaseEq(bs[1..][1..][i - 1], rest[1..][i - 1]);
        }
      }
    }
  }

  lemma {:induction false} MatchLeaves(al: Label, rest: seq<Label>, bs: seq<Label>)
    ensures var l := Match(al, rest, bs).0; l == al || l == [] || l in rest
    decreases bs
  {
    if !(al == [] || bs == [] || !CaseEq(al, bs[0])) {
      MatchLeaves(Head(rest), Tail(rest), bs[1..]);
    }
  }

  /** What the label under comparison can be once some candidates were tried: the right one or a later one. */
  predicate Possible(al: Label, suffix: seq<Label>) {
    al == [] || al in suffix
  }

  /** `b` agrees with the suffix from its second label on; its first label agrees with some label of the suffix. */
  ghost predicate TailMatches(b: seq<Label>, suffix: seq<Label>) {
    b != [] && |b| == |suffix| && SameNames(b[1..], suffix[1..])
    && exists j :: 0 <= j < |suffix| && CaseEq(suffix[j], b[0])
  }

  ghost predicate GoodHit(t: Trail, target: nat, suffix: seq<Label>) {
    t.Valid() && target <= MAX_TARGET
    && exists j :: 0 <= j < |t.labels| && t.pos[j] == target && TailMatches(t.labels[j..], suffix)
  }

  lemma {:induction false} ScanNameSound(t: Trail, j: nat, al: Label, suffix: seq<Label>)
    requires t.Valid() && j <= |t.labels|
    requires suffix != [] && AllNonEmpty(suffix) && Possible(al, suffix)
    ensures var f := ScanName(t, j, al, suffix[1..]);
            if f.Hit? then GoodHit(t, f.target, suffix) else Possible(f.stale, suffix)
    decreases |t.labels| - j
  {
    if j < |t.labels| {
      var (al', bs) := Match(al, suffix[1..], t.labels[j..]);
      MatchLeaves(al, suffix[1..], t.labels[j..]);
      if al' == [] && bs == [] && t.pos[j] <= MAX_TARGET {
        MatchBoth(al, suffix[1..], t.labels[j..]);
        var i :| 0 <= i < |suffix| && suffix[i] == al;
        assert CaseEq(suffix[i], t.labels[j..][0]);
        assert TailMatches(t.labels[j..], suffix);
      } else {
        ScanNameSound(t, j + 1, al', suffix);
      }
    }
  }

  ghost predicate GoodDictHit(names: seq<Trail>, target: nat, suffix: seq<Label>) {
    exists m :: 0 <= m < |names| && GoodHit(names[m], target, suffix)
  }

  lemma {:induction false} ScanDictSound(names: seq<Trail>, i: nat, al: Label, suffix: seq<Label>)
    requires AllValid(names) && i <= |names|
    requires suffix != [] && AllNonEmpty(suffix) && Possible(al, suffix)
    ensures var f := ScanDict(names, i, al, suffix[1..]); f.Hit? ==> GoodDictHit(names, f.target, suffix)
    decreases |names| - i
  {
    if i < |names| {
      ScanNameSound(names[i], 0, al, suffix);
      var f := ScanName(names[i], 0, al, suffix[1..]);
      if f.Miss? {
        ScanDictSound(names, i + 1, f.stale, suffix);
      }
    }
  }

  /**
   Where a name is compressed, the pointer's target has as many labels as the suffix it
   stands for and agrees with it in all but, possibly, the first.
   */
  lemma {:induction false} SearchSound(names: seq<Trail>, ls: seq<Label>, k: nat)
    requires AllValid(names) && k <= |ls| && AllNonEmpty(ls)
    ensures var r := Search(names, ls, k); r.At? ==> GoodDictHit(names, r.target, ls[r.k..])
    decreases |ls| - k
  {
    if k < |ls| {
      assert ls[k..][1..] == ls[k + 1..] && ls[k..][0] == ls[k];
      ScanDictSound(names, 0, ls[k], ls[k..]);
      SearchSound(names, ls, k + 1);
    }
  }

  /** No label occurs twice, ignoring case. */
  predicate Distinct(ls: seq<Label>) {
    forall i, j :: 0 <= i < j < |ls| ==> !CaseEq(ls[i], ls[j])
  }

  /** The first label can only be wrong if the name pointed into repeats a label. */
  lemma {:induction false} DistinctTail(b: seq<Label>, suffix: seq<Label>)
    requires TailMatches(b, suffix) && Distinct(b)
    ensures SameNames(b, suffix)
  {
    forall i | 0 < i < |b| ensures CaseEq(b[i], suffix[i]) {
      assert CaseEq(b[1..][i - 1], suffix[1..][i - 1]);
    }
    var j :| 0 <= j < |suffix| && CaseEq(suffix[j], b[0]);
    assert j > 0 ==> !CaseEq(b[0], b[j]);
  }

  // ---------------------------------------------------------------- reading back what was written

  predicate LabelFits(l: Label) {
    1 <= |l| <= 63
  }

  predicate AllFit(ls: seq<Label>) {
    forall i :: 0 <= i < |ls| ==> LabelFits(ls[i])
  }

  /** `s` stands in `d` at `p`. */
  predicate Stands(d: seq<byte>, p: nat, s: seq<byte>) {
    p + |s| <= |d| && forall i :: 0 <= i < |s| ==> d[p + i] == s[i]
  }

  lemma StandsParts(d: seq<byte>, p: nat, a: seq<byte>, b: seq<byte>)
    requires Stands(d, p, a + b)
    ensures Stands(d, p, a) && Stands(d, p + |a|, b)
  {
    forall i | 0 <= i < |a| ensures d[p + i] == a[i] {
      assert (a + b)[i] == a[i];
    }
    forall i | 0 <= i < |b| ensures d[p + |a| + i] == b[i] {
      assert d[p + (|a| + i)] == (a + b)[|a| + i];
    }
  }

  lemma WireStands(d: seq<byte>, p: nat, ls: seq<Label>)
    requires ls != [] && LabelFits(ls[0]) && Stands(d, p, Wire(ls))
    ensures var l := ls[0];
            |Wire(ls)| == 1 + |l| + |Wire(ls[1..])|
            && p < |d| && d[p] == |l| && Stands(d, p + 1, l) && Stands(d, p + 1 + |l|, Wire(ls[1..]))
  {
    var l := ls[0];
    assert Wire(ls) == [|l|] + (l + Wire(ls[1..]));
    StandsParts(d, p, [|l|], l + Wire(ls[1..]));
    StandsParts(d, p + 1, l, Wire(ls[1..]));
    assert d[p + 0] == [|l|][0];
  }

  lemma LabelReads(v: View, p: nat, hi: nat, l: Label)
    requires v.Valid() && v.lo <= p && p + 1 + |l| < hi <= |v.data| && LabelFits(l)
    requires v.data[p] == |l| && Stands(v.data, p + 1, l)
    ensures Walk(v, p, hi, 0) == Cons(l, Walk(v, p + 1 + |l|, hi, 0))
  {
    assert v.data[p + 1..p + 1 + |l|] == l;
  }

  /** The reading `r` with `ls` in front. */
  function Prefixed(ls: seq<Label>, r: Reading): (r': Reading)
    requires r.Name?
    ensures r'.Name? && r'.ok == r.ok
  {
    if ls == [] then r else Cons(ls[0], Prefixed(ls[1..], r))
  }

  lemma {:induction false} PrefixedSeq(ls: seq<Label>, r: Reading)
    requires r.Name?
    ensures ToSeq(Prefixed(ls, r).labels) == ls + ToSeq(r.labels)
  {
    if ls != [] {
      PrefixedSeq(ls[1..], r);
      assert [ls[0]] + (ls[1..] + ToSeq(r.labels)) == ls + ToSeq(r.labels);
    }
  }

  lemma {:induction false} WireReads(v: View, p: nat, hi: nat, ls: seq<Label>, r: Reading)
    requires v.Valid() && v.lo <= p && p + |Wire(ls)| < hi <= |v.data| && AllFit(ls) && Stands(v.data, p, Wire(ls))
    requires r.Name? && Walk(v, p + |Wire(ls)|, hi, 0) == r
    ensures Walk(v, p, hi, 0) == Prefixed(ls, r)
    decreases ls
  {
    if ls != [] {
      var l, q := ls[0], p + 1 + |ls[0]|;
      WireStands(v.data, p, ls);
      WireReads(v, q, hi, ls[1..], r);
      LabelReads(v, p, hi, l);
    }
  }

  /** One more pointer in front needs a limit one higher. */
  lemma {:induction false} WalkAfterPointer(v: View, p: nat, hi: nat, n: nat)
    requires v.Valid() && hi <= |v.data| && Walk(v, p, hi, n).Name? && Walk(v, p, hi, n).ok
    ensures Walk(v.(cap := v.cap + 1), p, hi, n + 1) == Walk(v, p, hi, n)
    decreases hi, |v.data| - p
  {
    var w := v.(cap := v.cap + 1);
    var len := v.data[p] % 64;
    var kind := v.data[p] / 64;
    if kind == 0 {
      if len != 0 {
        WalkExtends(w, v, p + 1 + len, hi, 0);
      }
    } else {
      WalkAfterPointer(v, Target(v.data, p), p, n + 1);
    }
  }

  /** The name at `p` ends properly with at most `v.cap` pointers in a row. */
  predicate ReadsOk(v: View, p: nat) {
    v.Valid() && v.lo == 12 && NameAt(v, p).Name? && NameAt(v, p).ok
  }

  /** The reading of a well-ended name, limited to 127 pointers, as the code reads. */
  lemma OkIsReadable(v: View, p: nat)
    requires ReadsOk(v, p)
    ensures Readable(v.data, p)
    ensures v.cap <= MAX_POINTERS ==> NameAt(Packet(v.data), p) == NameAt(v, p)
  {
    if v.cap <= MAX_POINTERS {
      WalkExtends(Packet(v.data), v, p, |v.data|, 0);
    } else {
      WalkCapped(v, p, |v.data|, 0, MAX_POINTERS);
    }
  }

  lemma {:induction false} TrailReads(v: View, p: nat, j: nat)
    requires ReadsOk(v, p) && v.cap <= MAX_POINTERS && Readable(v.data, p) && NameAt(Packet(v.data), p) == NameAt(v, p)
    requires j <= |LabelsAt(v, p)|
    ensures var t := TrailAt(v.data, p); ReadsOk(v, t.pos[j]) && LabelsAt(v, t.pos[j]) == t.labels[j..]
    decreases j
  {
    var t := TrailAt(v.data, p);
    if j == 0 {
      assert t.labels[0..] == t.labels;
    } else {
      ExpandStep(v, p, |v.data|, 0);
      var (l, x) := LExpand(v.data, p, 0);
      OkIsReadable(v, x);
      TrailReads(v, x, j - 1);
      var u := TrailAt(v.data, x);
      assert t.labels[j..] == u.labels[j - 1..];
    }
  }

  /** Wherever a label of a well-ended name is read, a well-ended name begins. */
  lemma {:induction false} TrailEnds(v: View, p: nat, j: nat)
    requires ReadsOk(v, p) && v.cap >= MAX_POINTERS && Readable(v.data, p) && j < |TrailAt(v.data, p).labels|
    ensures var q := TrailAt(v.data, p).pos[j]; q < |v.data| && ReadsOk(v, q)
    decreases j
  {
    var (l, x) := LExpand(v.data, p, 0);
    ExpandStep(Packet(v.data), p, |v.data|, 0);
    ExpandKeepsEnd(v, p, |v.data|, 0);
    if j > 0 {
      OkIsReadable(v, x);
      TrailEnds(v, x, j - 1);
    }
  }

  /** Texts that are domain names: the root, or labels of 1 to 63 octets, with or without a final dot. */
  predicate IsName(text: seq<byte>) {
    text == [DOT] || (text != [] && AllFit(Segments(text)))
  }

  lemma NameLabels(text: seq<byte>)
    requires IsName(text)
    ensures AllFit(LabelsOf(text))
    ensures Plain(text) == Wire(LabelsOf(text)) + [0]
    ensures if text == [DOT] then LabelsOf(text) == [] else LabelsOf(text) == Segments(text) != []
  {
    if text == [DOT] {
      assert SplitFrom(text, 1, 1) == [];
      assert text[0..0] == [];
      assert Segments(text) == [[]];
      assert Wire([[]]) == [0];
    } else {
      var segs := Segments(text);
      SplitSome(text, 0, 0);
      assert |LabelsOf(text)| < |segs| ==> LabelFits(segs[|LabelsOf(text)|]);
      assert segs[..|segs|] == segs;
      assert LabelFits(segs[0]);
      assert |Wire(segs)| > 1;
    }
  }

  lemma PlainReads(v: View, p: nat, ls: seq<Label>)
    requires v.Valid() && v.lo <= p && p + |Wire(ls)| < |v.data| && AllFit(ls) && Stands(v.data, p, Wire(ls) + [0])
    ensures NameAt(v, p) == Prefixed(ls, Name(Nil, true))
  {
    StandsParts(v.data, p, Wire(ls), [0]);
    assert v.data[p + |Wire(ls)| + 0] == [0][0];
    WireReads(v, p, |v.data|, ls, Name(Nil, true));
  }

  lemma PointerStep(v': View, v: View, q: nat, t: nat)
    requires Extends(v', v) && v'.cap >= v.cap + 1 && ReadsOk(v, t) && t < |v.data| && t <= MAX_TARGET
    requires |v.data| <= q && q + 2 <= |v'.data| && v'.data[q] == PointerTo(t)[0] && v'.data[q + 1] == PointerTo(t)[1]
    ensures Walk(v', q, |v'.data|, 0) == NameAt(v, t)
  {
    assert Target(v'.data, q) == t;
    WalkAfterPointer(v, t, |v.data|, 0);
    WalkExtends(v', v.(cap := v.cap + 1), t, |v.data|, 1);
    WalkRelax(v', t, |v.data|, 1, v.lo, q);
  }

  lemma PointerReads(v': View, v: View, ls: seq<Label>, t: nat)
    requires Extends(v', v) && v'.cap >= v.cap + 1 && ReadsOk(v, t) && t < |v.data| && t <= MAX_TARGET
    requires |v.data| + |Wire(ls)| + 2 <= |v'.data| && AllFit(ls) && Stands(v'.data, |v.data|, Wire(ls) + PointerTo(t))
    ensures NameAt(v', |v.data|) == Prefixed(ls, NameAt(v, t))
  {
    var q := |v.data| + |Wire(ls)|;
    StandsParts(v'.data, |v.data|, Wire(ls), PointerTo(t));
    assert v'.data[q + 0] == PointerTo(t)[0] && v'.data[q + 1] == PointerTo(t)[1];
    PointerStep(v', v, q, t);
    WireReads(v', |v.data|, |v'.data|, ls, NameAt(v, t));
  }

  /** `d` with the octets of a name and possibly more behind its end. */
  predicate Appended(d': seq<byte>, d: seq<byte>, w: seq<byte>) {
    |d| + |w| <= |d'| && d'[..|d|] == d && d'[|d|..|d| + |w|] == w
  }

  lemma AppendedExtends(d': seq<byte>, d: seq<byte>, w: seq<byte>, cap: nat, cap': nat)
    requires Appended(d', d, w) && 12 <= |d| && cap <= cap'
    ensures Extends(View(d', 12, cap'), View(d, 12, cap)) && Stands(d', |d|, w)
  {
    forall i | 0 <= i < |d| ensures d'[i] == d[i] {
      assert d'[..|d|][i] == d'[i];
    }
    forall i | 0 <= i < |w| ensures d'[|d| + i] == w[i] {
      assert d'[|d|..|d| + |w|][i] == d'[|d| + i];
    }
  }

  // ---------------------------------------------------------------- every push keeps names readable

  /** Pointers descend, so no run of them is longer than the packet. */
  function Unlimited(d: seq<byte>): View {
    View(d, 12, |d| + MAX_POINTERS)
  }

  /**
   What every entry of the dictionary is: the offset of a well-ended name, or the end of the
   packet (left there by a push that failed after its owner name was written).
   */
  predicate SoundDict(d: seq<byte>, dict: seq<nat>) {
    12 <= |d| && forall i :: 0 <= i < |Used(dict)| ==> dict[i] == |d|
                                                       || (dict[i] < |d| && ReadsOk(Unlimited(d), dict[i]))
  }

  lemma SoundDictReadable(d: seq<byte>, dict: seq<nat>)
    requires SoundDict(d, dict)
    ensures ReadableDict(d, dict) && AllValid(Names(d, dict))
  {
    forall i | 0 <= i < |Used(dict)| ensures Readable(d, dict[i]) {
      if dict[i] < |d| {
        OkIsReadable(Unlimited(d), dict[i]);
      }
    }
  }

  lemma AnyHitEnds(d: seq<byte>, dict: seq<nat>, target: nat, suffix: seq<Label>)
    requires SoundDict(d, dict) && ReadableDict(d, dict) && GoodDictHit(Names(d, dict), target, suffix)
    ensures target < |d| && target <= MAX_TARGET && ReadsOk(Unlimited(d), target)
  {
    var names := Names(d, dict);
    var m :| 0 <= m < |names| && GoodHit(names[m], target, suffix);
    var t := names[m];
    var j :| 0 <= j < |t.labels| && t.pos[j] == target && TailMatches(t.labels[j..], suffix);
    TrailEnds(Unlimited(d), dict[m], j);
  }

  /** Whatever the labels, a name written into a sound packet is well-ended. */
  lemma {:induction false} CompressedEnds(d: seq<byte>, dict: seq<nat>, text: seq<byte>, lim: nat, d': seq<byte>)
    requires SoundDict(d, dict) && ReadableDict(d, dict) && AllValid(Names(d, dict)) && IsName(text)
    requires Appended(d', d, Compressed(Names(d, dict), text, lim))
    ensures |d| < |d'| && ReadsOk(Unlimited(d'), |d|)
  {
    var ls, names := LabelsOf(text), Names(d, dict);
    var v, v' := Unlimited(d), Unlimited(d');
    NameLabels(text);
    AppendedExtends(d', d, Compressed(names, text, lim), v.cap, v'.cap);
    var r := Search(names, ls, 0);
    if |Plain(text)| < lim && r.At? {
      SearchSound(names, ls, 0);
      AnyHitEnds(d, dict, r.target, ls[r.k..]);
      PointerReads(v', v, ls[..r.k], r.target);
    } else {
      PlainReads(v', |d|, ls);
    }
  }

  // ---------------------------------------------------------------- clean names read back as themselves

  predicate NulFree(ls: seq<Label>) {
    forall i :: 0 <= i < |ls| ==> NoNul(ls[i])
  }

  /** Names that compression cannot confuse: no label twice, no NUL. */
  predicate Clean(ls: seq<Label>) {
    Distinct(ls) && NulFree(ls)
  }

  /** Every name in the dictionary is clean and needs at most `cap` pointers in a row. */
  predicate CleanDict(d: seq<byte>, dict: seq<nat>, cap: nat) {
    12 <= |d| && forall i :: 0 <= i < |Used(dict)| ==>
      dict[i] == |d| || (ReadsOk(View(d, 12, cap), dict[i]) && Clean(LabelsAt(View(d, 12, cap), dict[i])))
  }

  lemma CleanSuffix(ls: seq<Label>, j: nat)
    requires Clean(ls) && j <= |ls|
    ensures Clean(ls[j..])
  {
    forall a, b | 0 <= a < b < |ls[j..]| ensures !CaseEq(ls[j..][a], ls[j..][b]) {
      assert !CaseEq(ls[j + a], ls[j + b]);
    }
  }

  /** The `j`-th suffix of a clean dictionary name, where the code finds it. */
  lemma EntrySuffix(d: seq<byte>, dict: seq<nat>, cap: nat, m: nat, j: nat)
    requires CleanDict(d, dict, cap) && cap <= MAX_POINTERS && ReadableDict(d, dict)
    requires m < |Used(dict)| && j < |TrailAt(d, dict[m]).labels|
    ensures var v, t := View(d, 12, cap), TrailAt(d, dict[m]);
            ReadsOk(v, t.pos[j]) && LabelsAt(v, t.pos[j]) == t.labels[j..] && Clean(t.labels[j..])
  {
    var v := View(d, 12, cap);
    assert dict[m] != |d|;
    OkIsReadable(v, dict[m]);
    TrailReads(v, dict[m], j);
    CleanSuffix(LabelsAt(v, dict[m]), j);
  }

  /** A hit in a clean dictionary: the target reads as the suffix it stands for. */
  lemma HitReads(d: seq<byte>, dict: seq<nat>, cap: nat, suffix: seq<Label>, target: nat)
    requires CleanDict(d, dict, cap) && cap <= MAX_POINTERS && ReadableDict(d, dict)
    requires GoodDictHit(Names(d, dict), target, suffix)
    ensures ReadsBack(d, cap, target, suffix)
  {
    var names := Names(d, dict);
    var m :| 0 <= m < |names| && GoodHit(names[m], target, suffix);
    var t := names[m];
    var j :| 0 <= j < |t.labels| && t.pos[j] == target && TailMatches(t.labels[j..], suffix);
    EntrySuffix(d, dict, cap, m, j);
    DistinctTail(t.labels[j..], suffix);
  }

  lemma JoinSame(ls: seq<Label>, k: nat, b: seq<Label>)
    requires k <= |ls| && SameNames(b, ls[k..])
    requires NulFree(ls) && NulFree(b)
    ensures SameNames(ls[..k] + b, ls) && NulFree(ls[..k] + b)
  {
    forall i | 0 <= i < |ls| ensures CaseEq((ls[..k] + b)[i], ls[i]) && NoNul((ls[..k] + b)[i]) {
      if i >= k {
        assert CaseEq(b[i - k], ls[k..][i - k]);
      }
    }
  }

  /** The packet `d'` holds the name `ls`, up to case, from offset `p` on. */
  predicate ReadsBack(d': seq<byte>, cap: nat, p: nat, ls: seq<Label>) {
    var v := View(d', 12, cap);
    ReadsOk(v, p) && SameNames(LabelsAt(v, p), ls) && NulFree(LabelsAt(v, p))
  }

  lemma PlainReadsBack(d: seq<byte>, cap: nat, ls: seq<Label>, d': seq<byte>)
    requires 12 <= |d| && AllFit(ls) && NulFree(ls) && Appended(d', d, Wire(ls) + [0])
    ensures ReadsBack(d', cap + 1, |d|, ls)
  {
    AppendedExtends(d', d, Wire(ls) + [0], cap, cap + 1);
    PlainReads(View(d', 12, cap + 1), |d|, ls);
    PrefixedSeq(ls, Name(Nil, true));
    assert ls + [] == ls;
  }

  lemma PointerReadsBack(d: seq<byte>, cap: nat, ls: seq<Label>, k: nat, t: nat, d': seq<byte>)
    requires 12 <= |d| && k <= |ls| && AllFit(ls) && NulFree(ls) && Appended(d', d, Wire(ls[..k]) + PointerTo(t))
    requires t < |d| && t <= MAX_TARGET && ReadsBack(d, cap, t, ls[k..])
    ensures ReadsBack(d', cap + 1, |d|, ls)
  {
    var v := View(d, 12, cap);
    AppendedExtends(d', d, Wire(ls[..k]) + PointerTo(t), cap, cap + 1);
    PointerReads(View(d', 12, cap + 1), v, ls[..k], t);
    PrefixedSeq(ls[..k], NameAt(v, t));
    JoinSame(ls, k, LabelsAt(v, t));
  }

  /**
   Section 4.1.4 of RFC 1035, kept: in a packet of clean names a name that is written reads
   back as itself, up to case, and needs at most one more pointer in a row than the names before it.
   */
  lemma {:induction false} CompressedReads(d: seq<byte>, dict: seq<nat>, cap: nat, text: seq<byte>, lim: nat,
                                           d': seq<byte>)
    requires CleanDict(d, dict, cap) && cap < MAX_POINTERS && SoundDict(d, dict)
    requires ReadableDict(d, dict) && AllValid(Names(d, dict))
    requires IsName(text) && NulFree(LabelsOf(text)) && Appended(d', d, Compressed(Names(d, dict), text, lim))
    ensures ReadsBack(d', cap + 1, |d|, LabelsOf(text))
  {
    var ls, names := LabelsOf(text), Names(d, dict);
    NameLabels(text);
    var r := Search(names, ls, 0);
    if |Plain(text)| < lim && r.At? {
      SearchSound(names, ls, 0);
      HitReads(d, dict, cap, ls[r.k..], r.target);
      AnyHitEnds(d, dict, r.target, ls[r.k..]);
      PointerReadsBack(d, cap, ls, r.k, r.target, d');
    } else {
      PlainReadsBack(d, cap, ls, d');
    }
  }

  /** What reads back as a clean name is clean. */
  lemma ReadsBackClean(d: seq<byte>, cap: nat, p: nat, ls: seq<Label>)
    requires ReadsBack(d, cap, p, ls) && Clean(ls)
    ensures Clean(LabelsAt(View(d, 12, cap), p))
  {
    var b := LabelsAt(View(d, 12, cap), p);
    forall i, j | 0 <= i < j < |b| ensures !CaseEq(b[i], b[j]) {
      assert CaseEq(b[i], ls[i]) && CaseEq(b[j], ls[j]);
    }
  }
}
