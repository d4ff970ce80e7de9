/**
 `dns_d_comp` as the code runs it: nested loops over a packet buffer, with the packet
 as destination.  The loops compute what the search functions of `DnsCompress` say.
 */
module DnsCompressLoops {
  import opened Bytes
  import opened DnsWalk
  import opened DnsRead
  import opened DnsCompress
  import opened DnsCompressSound

  // ---------------------------------------------------------------- writing the name in full

  /** From `base` on, `cur` begins with as much of `s` as there is room for; before `base` it is `d`. */
  predicate WrittenAt(cur: seq<byte>, d: seq<byte>, base: nat, s: seq<byte>) {
    WrittenBut(cur, d, base, s, |s|)
  }

  predicate WrittenBut(cur: seq<byte>, d: seq<byte>, base: nat, s: seq<byte>, hole: nat) {
    base <= |cur| == |d| && cur[..base] == d[..base]
    && forall i :: base <= i < |cur| && i - base < |s| && i - base != hole ==> cur[i] == s[i - base]
  }

  /** `dst.b[dst.p] = ...`, where the length octet of a label was left out before. */
  method FillHole(data: array<byte>, base: nat, hole: nat, c: byte, ghost d: seq<byte>, ghost s: seq<byte>)
    requires hole < |s| && WrittenBut(data[..], d, base, s, hole)
    modifies data
    ensures WrittenAt(data[..], d, base, s[hole := c])
  {
    if hole < data.Length - base {
      data[base + hole] := c;
    }
  }

  /** `dst.b[dst.x] = ch`. */
  method AppendOctet(data: array<byte>, base: nat, c: byte, ghost d: seq<byte>, ghost s: seq<byte>, at: nat,
                     ghost hole: nat)
    requires at == |s| && WrittenBut(data[..], d, base, s, hole)
    modifies data
    ensures WrittenBut(data[..], d, base, s + [c], hole)
  {
    if at < data.Length - base {
      data[base + at] := c;
    }
  }

  function Pending(done: seq<Label>, l: Label): (s: seq<byte>)
    ensures |s| == |Wire(done)| + 1 + |l|
  {
    Wire(done) + [0] + l
  }

  lemma SegmentDone(done: seq<Label>, l: Label)
    ensures Pending(done, l)[|Wire(done)| := |l| % 64] == Wire(done + [l])
  {
    SegmentWritten(done, l);
  }

  lemma SegmentWritten(done: seq<Label>, l: Label)
    ensures Wire(done + [l]) == Wire(done) + ([|l| % 64] + l)
  {
    WireAppend(done, [l]);
    assert Wire([l]) == [|l| % 64] + l;
  }

  lemma AppendLabel(done: seq<Label>, l: Label, rest: seq<Label>)
    ensures done + ([l] + rest) == (done + [l]) + rest
  {
  }

  /** The first loop of `dns_d_comp`: the whole name, with every write bounded. */
  method WriteFull(data: array<byte>, base: nat, text: seq<byte>) returns (n: nat)
    requires base <= data.Length
    modifies data
    ensures n == |Plain(text)| && WrittenAt(data[..], old(data[..]), base, Plain(text))
  {
    ghost var d := data[..];
    var x: nat, p: nat, dstp: nat := 0, 0, 0;
    ghost var done: seq<Label> := [];
    assert Pending([], []) == [0];
    while x < |text|
      invariant p <= x <= |text| && dstp == |Wire(done)|
      invariant Segments(text) == done + SplitFrom(text, p, x)
      invariant WrittenBut(data[..], d, base, Pending(done, text[p..x]), dstp)
    {
      ghost var l := text[p..x];
      if text[x] == DOT {
        AppendLabel(done, l, SplitFrom(text, x + 1, x + 1));
        SegmentDone(done, l);
        FillHole(data, base, dstp, (x - p) % 64, d, Pending(done, l));
        done := done + [l];
        dstp := dstp + 1 + (x - p);
        x := x + 1;
        p := x;
        assert Pending(done, text[p..x]) == Wire(done) + [0];
      } else {
        AppendOctet(data, base, text[x], d, Pending(done, l), dstp + 1 + (x - p), dstp);
        assert Pending(done, l) + [text[x]] == Pending(done, text[p..x + 1]);
        x := x + 1;
      }
    }
    if x > p {
      SegmentDone(done, text[p..x]);
      FillHole(data, base, dstp, (x - p) % 64, d, Pending(done, text[p..x]));
      done := done + [text[p..x]];
      dstp := dstp + 1 + (x - p);
    }
    assert done == Segments(text);
    if dstp > 1 {
      AppendOctet(data, base, 0, d, Wire(done), dstp, |Wire(done)| + 1);
      dstp := dstp + 1;
    }
    n := dstp;
  }

  // ---------------------------------------------------------------- the scratch copy

  predicate ShortSegments(text: seq<byte>) {
    forall i :: 0 <= i < |Segments(text)| ==> |Segments(text)[i]| <= MAX_LABEL
  }

  /** Where the labels of a name in full are read, from `p` on. */
  function FullTrail(p: nat, ls: seq<Label>): (t: Trail)
    ensures t.Valid() && t.labels == ls && t.pos[0] == p
    decreases ls
  {
    if ls == [] then Trail([p], []) else Trail([p] + FullTrail(p + 1 + |ls[0]|, ls[1..]).pos, ls)
  }

  lemma LabelAt(d: seq<byte>, p: nat, l: Label)
    requires p + 1 + |l| <= |d| && |l| <= MAX_LABEL && d[p] == |l| && Stands(d, p + 1, l)
    ensures LExpand(d, p, 0) == (l, p + 1 + |l|)
  {
    assert d[p + 1..p + 1 + |l|] == l;
  }

  lemma {:induction false} StandsFollows(d: seq<byte>, p: nat, ls: seq<Label>)
    requires p + |Wire(ls)| < |d| && AllFit(ls) && Stands(d, p, Wire(ls)) && d[p + |Wire(ls)|] == 0
    ensures Follows(FullTrail(p, ls), d)
    decreases ls
  {
    var t := FullTrail(p, ls);
    if ls == [] {
      LabelAt(d, p, []);
    } else {
      WireStands(d, p, ls);
      LabelAt(d, p, ls[0]);
      StandsFollows(d, p + 1 + |ls[0]|, ls[1..]);
      FollowsCons(d, p, ls);
    }
  }

  lemma FollowsCons(d: seq<byte>, p: nat, ls: seq<Label>)
    requires ls != [] && ls[0] != [] && LExpand(d, p, 0) == (ls[0], p + 1 + |ls[0]|)
    requires Follows(FullTrail(p + 1 + |ls[0]|, ls[1..]), d)
    ensures Follows(FullTrail(p, ls), d)
  {
    var t, u := FullTrail(p, ls), FullTrail(p + 1 + |ls[0]|, ls[1..]);
    forall i | 0 <= i <= |ls|
      ensures if i < |ls| then LExpand(d, t.pos[i], 0) == (ls[i], t.pos[i + 1]) && ls[i] != []
              else LExpand(d, t.pos[i], 0).0 == []
    {
      if i > 0 {
        assert t.pos[i] == u.pos[i - 1];
        assert LExpand(d, u.pos[i - 1], 0) == LExpand(d, t.pos[i], 0);
      }
    }
  }

  /** The name in full starts with its labels and a zero octet, whatever follows an empty label. */
  lemma {:induction false} WireStops(ls: seq<Label>)
    requires |NonEmptyPrefix(ls)| < |ls|
    ensures var w := Wire(NonEmptyPrefix(ls)); |w| < |Wire(ls)| && Wire(ls)[..|w|] == w && Wire(ls)[|w|] == 0
    decreases ls
  {
    if ls[0] != [] {
      var l, pre := ls[0], NonEmptyPrefix(ls[1..]);
      WireStops(ls[1..]);
      var h := [|l| % 64] + l;
      assert ([l] + pre)[1..] == pre;
      assert Wire(NonEmptyPrefix(ls)) == h + Wire(pre);
      assert Wire(ls) == h + Wire(ls[1..]);
    }
  }

  lemma PlainStarts(text: seq<byte>)
    requires text != []
    ensures var w := Wire(LabelsOf(text)); |w| < |Plain(text)| && Plain(text)[..|w|] == w && Plain(text)[|w|] == 0
  {
    var segs := Segments(text);
    SplitSome(text, 0, 0);
    if |LabelsOf(text)| == |segs| {
      assert segs[..|segs|] == segs;
      assert |Wire(segs)| > 1;
      assert Plain(text) == Wire(segs) + [0];
    } else {
      WireStops(segs);
    }
  }

  lemma LabelsFit(text: seq<byte>)
    requires ShortSegments(text)
    ensures AllFit(LabelsOf(text))
  {
    var ls := LabelsOf(text);
    forall i | 0 <= i < |ls| ensures LabelFits(ls[i]) {
      assert ls[i] == Segments(text)[i] && ls[i] != [];
    }
  }

  /** Once `dns_d_comp` wrote the name in full, its own reads of that copy find its labels. */
  lemma ScratchFollows(cur: seq<byte>, d: seq<byte>, base: nat, text: seq<byte>)
    requires text != [] && ShortSegments(text) && base + |Plain(text)| < |cur| && WrittenAt(cur, d, base, Plain(text))
    ensures Follows(FullTrail(0, LabelsOf(text)), cur[base..])
  {
    var w := Wire(LabelsOf(text));
    LabelsFit(text);
    PlainStarts(text);
    var c := cur[base..];
    forall i | 0 <= i <= |w| ensures c[0 + i] == Plain(text)[i] {
      assert cur[base + i] == Plain(text)[i];
    }
    forall i | 0 <= i < |w| ensures c[0 + i] == w[i] {
      assert w[i] == Plain(text)[..|w|][i];
    }
    StandsFollows(c, 0, LabelsOf(text));
  }

  // ---------------------------------------------------------------- the search

  function LabelOn(t: Trail, i: nat): Label
    requires i <= |t.labels|
  {
    if i < |t.labels| then t.labels[i] else []
  }

  /** `dns_l_expand`, going along `t`. */
  method NextLabel(d: seq<byte>, p: nat, ghost t: Trail, ghost i: nat) returns (l: Label, x: nat)
    requires Follows(t, d) && i <= |t.labels| && p == t.pos[i]
    ensures l == LabelOn(t, i) && (l != [] <==> i < |t.labels|) && (i < |t.labels| ==> x == t.pos[i + 1])
  {
    l, x := ExpandLabel(d, p);
  }

  /**
   The inner loop: label `al`, before the `i`-th of `a` in the scratch copy, against the `j`-th of `b` in the packet.
   */
  method MatchLoop(scratch: seq<byte>, d: seq<byte>, al: Label, ax: nat, bl: Label, bx: nat,
                   ghost a: Trail, ghost i: nat, ghost b: Trail, ghost j: nat)
    returns (al': Label, bl': Label)
    requires Follows(a, scratch) && Follows(b, d)
    requires i <= |a.labels| && ax == a.pos[i] && j < |b.labels| && bl == b.labels[j] != [] && bx == b.pos[j + 1]
    ensures var (m, bs) := Match(al, a.labels[i..], b.labels[j..]); al' == m && (bl' == [] <==> bs == [])
  {
    al', bl' := al, bl;
    var ax': nat, bx': nat := ax, bx;
    ghost var m: nat, n: nat := i, j;
    while al' != [] && bl' != [] && CaseEq(al', bl')
      invariant n <= |b.labels| && bl' == LabelOn(b, n) && (bl' != [] <==> n < |b.labels|)
      invariant m <= |a.labels| && (al' != [] ==> ax' == a.pos[m])
      invariant n < |b.labels| ==> bx' == b.pos[n + 1]
      invariant Match(al', a.labels[m..], b.labels[n..]) == Match(al, a.labels[i..], b.labels[j..])
      decreases |b.labels| - n
    {
      assert Head(a.labels[m..]) == LabelOn(a, m);
      assert b.labels[n..][1..] == b.labels[n + 1..];
      assert m < |a.labels| ==> a.labels[m..][1..] == a.labels[m + 1..];
      al', ax' := NextLabel(scratch, ax', a, m);
      bl', bx' := NextLabel(d, bx', b, n + 1);
      m, n := if m < |a.labels| then m + 1 else m, n + 1;
    }
  }

  method ScanNameLoop(scratch: seq<byte>, d: seq<byte>, al: Label, ax: nat, p: nat, ghost a: Trail, ghost i: nat,
                      ghost b: Trail)
    returns (f: Found)
    requires Follows(a, scratch) && Follows(b, d) && i <= |a.labels| && ax == a.pos[i] && p == b.pos[0]
    ensures f == ScanName(b, 0, al, a.labels[i..])
  {
    var stale, bp: nat := al, p;
    ghost var j := 0;
    var bl, bx := NextLabel(d, bp, b, j);
    while bl != []
      invariant j <= |b.labels| && bp == b.pos[j] && bl == LabelOn(b, j) && (bl != [] <==> j < |b.labels|)
      invariant j < |b.labels| ==> bx == b.pos[j + 1]
      invariant ScanName(b, j, stale, a.labels[i..]) == ScanName(b, 0, al, a.labels[i..])
      decreases |b.labels| - j
    {
      var al', bl' := MatchLoop(scratch, d, stale, ax, bl, bx, a, i, b, j);
      if al' == [] && bl' == [] && bp <= MAX_TARGET {
        return Hit(bp);
      }
      stale, bp := al', bx;
      j := j + 1;
      bl, bx := NextLabel(d, bp, b, j);
    }
    f := Miss(stale);
  }

  /** The dictionary's names as the loops meet them. */
  ghost predicate DictFollows(names: seq<Trail>, d: seq<byte>, dict: seq<nat>) {
    |names| == |Used(dict)| && forall m :: 0 <= m < |names| ==> Follows(names[m], d) && names[m].pos[0] == dict[m]
  }

  method ScanDictLoop(scratch: seq<byte>, d: seq<byte>, dict: array<nat>, al: Label, ax: nat,
                      ghost a: Trail, ghost i: nat, ghost names: seq<Trail>)
    returns (f: Found)
    requires Follows(a, scratch) && i <= |a.labels| && ax == a.pos[i] && DictFollows(names, d, dict[..])
    ensures AllValid(names) && f == ScanDict(names, 0, al, a.labels[i..])
  {
    var m: nat, stale := 0, al;
    while m < dict.Length && dict[m] != 0
      invariant m <= |names| && AllValid(names)
      invariant ScanDict(names, m, stale, a.labels[i..]) == ScanDict(names, 0, al, a.labels[i..])
      decreases |names| - m
    {
      f := ScanNameLoop(scratch, d, stale, ax, dict[m], a, i, names[m]);
      if f.Hit? {
        return;
      }
      stale := f.stale;
      m := m + 1;
    }
    f := Miss(stale);
  }

  /** Up to the `k`-th label the full name is what it starts with. */
  lemma PlainPrefix(text: seq<byte>, k: nat)
    requires text != [] && k < |LabelsOf(text)| && AllFit(LabelsOf(text))
    ensures var w := Wire(LabelsOf(text)[..k]); |w| + 2 < |Plain(text)| && Plain(text)[..|w|] == w
  {
    var ls := LabelsOf(text);
    PlainStarts(text);
    assert ls[..k] + ls[k..] == ls;
    WireAppend(ls[..k], ls[k..]);
    assert LabelFits(ls[k]);
    assert |Wire(ls[k..])| >= 2;
    assert Plain(text)[..|Wire(ls)|][..|Wire(ls[..k])|] == Plain(text)[..|Wire(ls[..k])|];
  }

  /** The pointer takes the place of the rest of the name. */
  lemma CutOff(cur: seq<byte>, d: seq<byte>, base: nat, text: seq<byte>, k: nat, ap: nat, t: nat)
    requires text != [] && k < |LabelsOf(text)| && AllFit(LabelsOf(text)) && WrittenAt(cur, d, base, Plain(text))
    requires base + |Plain(text)| <= |d| && ap == |Wire(LabelsOf(text)[..k])|
    ensures base + ap + 2 <= |d|
    ensures var w := CutTo(text, At(k, t));
            |w| == ap + 2
            && WrittenAt(cur[base + ap := PointerTo(t)[0]][base + ap + 1 := PointerTo(t)[1]], d, base, w)
  {
    PlainPrefix(text, k);
    var w := Wire(LabelsOf(text)[..k]);
    forall i | 0 <= i < ap ensures Plain(text)[i] == w[i] {
      assert Plain(text)[i] == Plain(text)[..|w|][i];
    }
  }

  lemma {:induction false} FullTrailPos(p: nat, ls: seq<Label>, m: nat)
    requires m <= |ls| && AllFit(ls)
    ensures FullTrail(p, ls).pos[m] == p + |Wire(ls[..m])|
    decreases |ls|
  {
    if m > 0 {
      var q := p + 1 + |ls[0]|;
      FullTrailPos(q, ls[1..], m - 1);
      assert ls[..m][0] == ls[0] && ls[..m][1..] == ls[1..][..m - 1];
      assert FullTrail(p, ls).pos[m] == FullTrail(q, ls[1..]).pos[m - 1];
    }
  }

  method WritePointer(data: array<byte>, at: nat, target: nat)
    requires at + 2 <= data.Length
    modifies data
    ensures data[..] == old(data[..])[at := PointerTo(target)[0]][at + 1 := PointerTo(target)[1]]
  {
    data[at] := 192 + (target / 256) % 64;
    data[at + 1] := target % 256;
  }

  /** The trail of `ls` in full, from offset 0 on. */
  ghost predicate Spans(t: Trail, ls: seq<Label>) {
    t.Valid() && t.pos[0] == 0 && t.labels == ls && forall k {:trigger Wire(ls[..k])} :: 0 <= k <= |ls| ==>
      t.pos[k] == |Wire(ls[..k])|
  }

  lemma FullSpans(ls: seq<Label>)
    requires AllFit(ls)
    ensures Spans(FullTrail(0, ls), ls)
  {
    forall k | 0 <= k <= |ls| ensures FullTrail(0, ls).pos[k] == |Wire(ls[..k])| {
      FullTrailPos(0, ls, k);
    }
  }

  /** The suffix from the `k`-th label on is replaced by a pointer. */
  method TakePointer(data: array<byte>, base: nat, ap: nat, target: nat, ghost text: seq<byte>, ghost k: nat,
                     ghost d: seq<byte>)
    returns (n: nat)
    requires text != [] && k < |LabelsOf(text)| && AllFit(LabelsOf(text)) && WrittenAt(data[..], d, base, Plain(text))
    requires base + |Plain(text)| <= |d| && ap == |Wire(LabelsOf(text)[..k])|
    modifies data
    ensures var w := CutTo(text, At(k, target)); n == |w| && WrittenAt(data[..], d, base, w)
  {
    ghost var cur := data[..];
    CutOff(cur, d, base, text, k, ap, target);
    WritePointer(data, base + ap, target);
    n := ap + 2;
  }

  /** The search from the `k`-th label on comes to `r`. */
  ghost predicate Comes(names: seq<Trail>, ls: seq<Label>, k: nat, r: Place) {
    AllValid(names) && k <= |ls| && Search(names, ls, k) == r
  }

  /** One suffix was tried. */
  lemma SuffixTried(names: seq<Trail>, ls: seq<Label>, k: nat, f: Found, r: Place)
    requires k < |ls| && Comes(names, ls, k, r) && f == ScanDict(names, 0, ls[k], ls[k + 1..])
    ensures if f.Hit? then r == At(k, f.target) else Comes(names, ls, k + 1, r)
  {
  }

  lemma AllTried(names: seq<Trail>, ls: seq<Label>, r: Place)
    requires Comes(names, ls, |ls|, r)
    ensures r == Nowhere
  {
  }

  /** The search for the first suffix that is known; where it begins in the scratch copy. */
  method FindSuffix(scratch: seq<byte>, packet: seq<byte>, dict: array<nat>, ghost names: seq<Trail>, ghost a: Trail)
    returns (f: Found, ap: nat, ghost k: nat)
    requires Follows(a, scratch) && a.pos[0] == 0 && DictFollows(names, packet, dict[..]) && AllValid(names)
    ensures if f.Hit? then k < |a.labels| && ap == a.pos[k] && Search(names, a.labels, 0) == At(k, f.target)
            else Search(names, a.labels, 0) == Nowhere
  {
    ghost var ls, r := a.labels, Search(names, a.labels, 0);
    k, ap := 0, 0;
    var al, ax := NextLabel(scratch, ap, a, 0);
    while al != []
      invariant k <= |ls| && ap == a.pos[k] && al == LabelOn(a, k) && (al != [] <==> k < |ls|)
      invariant k < |ls| ==> ax == a.pos[k + 1]
      invariant Comes(names, ls, k, r)
      decreases |ls| - k
    {
      f := ScanDictLoop(scratch, packet, dict, al, ax, a, k + 1, names);
      SuffixTried(names, ls, k, f, r);
      if f.Hit? {
        return;
      }
      ap, k := ax, k + 1;
      al, ax := NextLabel(scratch, ap, a, k);
    }
    AllTried(names, ls, r);
    f := Miss(al);
  }

  method SearchLoop(data: array<byte>, base: nat, dict: array<nat>, ghost text: seq<byte>, dstp: nat,
                    ghost d: seq<byte>, ghost names: seq<Trail>, ghost a: Trail)
    returns (n: nat)
    requires base + dstp < data.Length && text != [] && AllFit(LabelsOf(text)) && dstp == |Plain(text)|
    requires WrittenAt(data[..], d, base, Plain(text)) && Spans(a, LabelsOf(text)) && Follows(a, data[base..])
    requires DictFollows(names, data[..base], dict[..]) && AllValid(names)
    modifies data
    ensures var w := CutTo(text, Search(names, LabelsOf(text), 0)); n == |w| && WrittenAt(data[..], d, base, w)
  {
    var f, ap, k := FindSuffix(data[base..], data[..base], dict, names, a);
    n := dstp;
    if f.Hit? {
      n := TakePointer(data, base, ap, f.target, text, k, d);
    }
  }

  /**
   `dns_d_comp` with the packet's own buffer as destination: the name goes behind
   the end of the packet, in full and then with its compressible suffix cut off.  The
   octets further behind are scratch.  A result beyond the room there means nothing was kept.
   */
  method CompressName(data: array<byte>, base: nat, dict: array<nat>, text: seq<byte>) returns (n: nat)
    requires base <= data.Length && text != [] && ShortSegments(text)
    requires ReadableDict(data[..base], dict[..])
    modifies data
    ensures var names := Names(old(data[..base]), dict[..]);
            AllValid(names)
            && var w := Compressed(names, text, data.Length - base);
               n == |w| && WrittenAt(data[..], old(data[..]), base, w)
  {
    ghost var d := data[..];
    ghost var names := Names(data[..base], dict[..]);
    forall m | 0 <= m < |names| ensures Follows(names[m], data[..base]) && names[m].pos[0] == dict[m] {
      TrailFollows(data[..base], dict[m]);
    }
    n := WriteFull(data, base, text);
    assert data[..base] == d[..base];
    if n < data.Length - base {
      LabelsFit(text);
      ScratchFollows(data[..], d, base, text);
      assert data[..][base..] == data[base..];
      FullSpans(LabelsOf(text));
      n := SearchLoop(data, base, dict, text, n, d, names, FullTrail(0, LabelsOf(text)));
    }
  }
}
