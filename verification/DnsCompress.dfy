/**
 Writing a name with suffix compression (section 4.1.4 of RFC 1035): what `dns_d_comp` leaves.

 The name is first written in full.  Then the first suffix of it that some name in the
 dictionary also ends with is replaced by a pointer.  While the code looks for that suffix,
 `a.label` is read once per suffix and overwritten by the comparison with every
 candidate, so later candidates are compared with a label that may no longer be the suffix's
 own.  The search below carries that stale label along.
 */
module DnsCompress {
  import opened Bytes
  import opened DnsWalk
  import opened DnsRead

  // ---------------------------------------------------------------- names in full

  /** Splits `s` from `x` on at its dots, the current label having begun at `p`. */
  function SplitFrom(s: seq<byte>, p: nat, x: nat): seq<Label>
    requires p <= x <= |s|
    decreases |s| - x
  {
    if x == |s| then (if p < x then [s[p..x]] else [])
    else if s[x] == DOT then [s[p..x]] + SplitFrom(s, x + 1, x + 1)
    else SplitFrom(s, p, x + 1)
  }

  /** The labels of a dotted text; a final dot ends the last label and adds none. */
  function Segments(s: seq<byte>): seq<Label> {
    SplitFrom(s, 0, 0)
  }

  lemma {:induction false} SplitSome(s: seq<byte>, p: nat, x: nat)
    requires p <= x <= |s| && p < |s|
    ensures SplitFrom(s, p, x) != []
    decreases |s| - x
  {
    if x < |s| && s[x] != DOT {
      SplitSome(s, p, x + 1);
    }
  }

  function Wire(ls: seq<Label>): seq<byte> {
    if ls == [] then [] else [|ls[0]| % 64] + ls[0] + Wire(ls[1..])
  }

  /** The name in full.  The root is the one name whose single empty label also ends it. */
  function Plain(text: seq<byte>): seq<byte> {
    var w := Wire(Segments(text));
    if |w| > 1 then w + [0] else w
  }

  lemma {:induction false} WireAppend(a: seq<Label>, b: seq<Label>)
    ensures Wire(a + b) == Wire(a) + Wire(b)
  {
    if a == [] {
      assert a + b == b;
    } else {
      assert (a + b)[1..] == a[1..] + b;
      WireAppend(a[1..], b);
    }
  }

  /** The labels before the first empty one: all that a reader of the full name sees. */
  function NonEmptyPrefix(ls: seq<Label>): (r: seq<Label>)
    ensures |r| <= |ls| && r == ls[..|r|] && AllNonEmpty(r)
    ensures |r| < |ls| ==> ls[|r|] == []
  {
    if ls == [] || ls[0] == [] then [] else [ls[0]] + NonEmptyPrefix(ls[1..])
  }

  predicate AllNonEmpty(ls: seq<Label>) {
    forall i :: 0 <= i < |ls| ==> ls[i] != []
  }

  function LabelsOf(text: seq<byte>): seq<Label> {
    NonEmptyPrefix(Segments(text))
  }

  // ---------------------------------------------------------------- the dictionary

  /** A name as a reader meets it: the offset at which each label is read, and the label. */
  datatype Trail = Trail(pos: seq<nat>, labels: seq<Label>) {
    predicate Valid() {
      |pos| == |labels| + 1
    }
  }

  /** Reading label by label from `t.pos[0]` goes along `t`. */
  ghost predicate Follows(t: Trail, d: seq<byte>)
  {
    t.Valid()
    && forall i {:trigger LExpand(d, t.pos[i], 0)} :: 0 <= i <= |t.labels| ==>
         if i < |t.labels| then LExpand(d, t.pos[i], 0) == (t.labels[i], t.pos[i + 1]) && t.labels[i] != []
         else LExpand(d, t.pos[i], 0).0 == []
  }

  /** The packet as the code reads it: names lie behind the header. */
  function Packet(d: seq<byte>): View {
    View(d, 12, MAX_POINTERS)
  }

  predicate Readable(d: seq<byte>, p: nat) {
    12 <= |d| && NameAt(Packet(d), p).Name?
  }

  function TrailAt(d: seq<byte>, p: nat): (t: Trail)
    requires Readable(d, p)
    ensures t.Valid() && t.pos[0] == p && t.labels == LabelsAt(Packet(d), p)
    decreases NameAt(Packet(d), p).labels
  {
    ExpandStep(Packet(d), p, |d|, 0);
    var (l, x) := LExpand(d, p, 0);
    if NameAt(Packet(d), p).labels == Nil then Trail([p], [])
    else
      var t := TrailAt(d, x);
      Trail([p] + t.pos, [l] + t.labels)
  }

  lemma {:induction false} TrailFollows(d: seq<byte>, p: nat)
    requires Readable(d, p)
    ensures Follows(TrailAt(d, p), d)
    decreases NameAt(Packet(d), p).labels
  {
    ExpandStep(Packet(d), p, |d|, 0);
    var (l, x) := LExpand(d, p, 0);
    if NameAt(Packet(d), p).labels != Nil {
      TrailFollows(d, x);
      var t, u := TrailAt(d, p), TrailAt(d, x);
      forall i | 0 <= i <= |t.labels|
        ensures if i < |t.labels| then LExpand(d, t.pos[i], 0) == (t.labels[i], t.pos[i + 1]) && t.labels[i] != []
                else LExpand(d, t.pos[i], 0).0 == []
      {
        if i > 0 {
          assert LExpand(d, u.pos[i - 1], 0) == LExpand(d, t.pos[i], 0);
        }
      }
    }
  }

  /** The dictionary in use: offsets of names, up to the first zero. */
  function Used(dict: seq<nat>): (r: seq<nat>)
    ensures |r| <= |dict| && r == dict[..|r|] && (|r| < |dict| ==> dict[|r|] == 0)
    ensures forall i :: 0 <= i < |r| ==> r[i] != 0
  {
    if dict == [] || dict[0] == 0 then [] else [dict[0]] + Used(dict[1..])
  }

  predicate ReadableDict(d: seq<byte>, dict: seq<nat>) {
    forall i :: 0 <= i < |Used(dict)| ==> Readable(d, dict[i])
  }

  function Names(d: seq<byte>, dict: seq<nat>): (r: seq<Trail>)
    requires ReadableDict(d, dict)
  {
    seq(|Used(dict)|, i requires 0 <= i < |Used(dict)| => TrailAt(d, dict[i]))
  }

  // ---------------------------------------------------------------- the search

  function Head(ls: seq<Label>): Label {
    if ls == [] then [] else ls[0]
  }

  function Tail(ls: seq<Label>): seq<Label> {
    if ls == [] then [] else ls[1..]
  }

  /**
   The comparison loop: from label `al` (then the labels `rest`) and the labels `bs`, as long as
   both go on and agree.  It leaves what it stopped at.
   */
  function Match(al: Label, rest: seq<Label>, bs: seq<Label>): (Label, seq<Label>)
    decreases bs
  {
    if al == [] || bs == [] || !CaseEq(al, bs[0]) then (al, bs)
    else Match(Head(rest), Tail(rest), bs[1..])
  }

  datatype Found = Hit(target: nat) | Miss(stale: Label)

  /** Tries the suffixes of the name `t` from the `j`-th label on; `al` is the label last left behind. */
  function ScanName(t: Trail, j: nat, al: Label, rest: seq<Label>): Found
    requires t.Valid() && j <= |t.labels|
    decreases |t.labels| - j
  {
    if j == |t.labels| then Miss(al)
    else
      var (al', bs) := Match(al, rest, t.labels[j..]);
      if al' == [] && bs == [] && t.pos[j] <= MAX_TARGET then Hit(t.pos[j])
      else ScanName(t, j + 1, al', rest)
  }

  predicate AllValid(names: seq<Trail>) {
    forall i :: 0 <= i < |names| ==> names[i].Valid()
  }

  function ScanDict(names: seq<Trail>, i: nat, al: Label, rest: seq<Label>): Found
    requires AllValid(names) && i <= |names|
    decreases |names| - i
  {
    if i == |names| then Miss(al)
    else
      var f := ScanName(names[i], 0, al, rest);
      if f.Hit? then f else ScanDict(names, i + 1, f.stale, rest)
  }

  datatype Place = At(k: nat, target: nat) | Nowhere

  /** The first suffix of `ls`, from the `k`-th label on, for which the scan reports a hit. */
  function Search(names: seq<Trail>, ls: seq<Label>, k: nat): (r: Place)
    requires AllValid(names) && k <= |ls|
    ensures r.At? ==> k <= r.k < |ls|
    decreases |ls| - k
  {
    if k == |ls| then Nowhere
    else
      var f := ScanDict(names, 0, ls[k], ls[k + 1..]);
      if f.Hit? then At(k, f.target) else Search(names, ls, k + 1)
  }

  function PointerTo(t: nat): (s: seq<byte>)
    ensures |s| == 2
  {
    [192 + (t / 256) % 64, t % 256]
  }

  /** What replaces the full name once the search is over. */
  function CutTo(text: seq<byte>, r: Place): seq<byte>
    requires r.At? ==> r.k <= |LabelsOf(text)|
  {
    if r.At? then Wire(LabelsOf(text)[..r.k]) + PointerTo(r.target) else Plain(text)
  }

  /** The octets `dns_d_comp` leaves for `text`, with `lim` octets of room. */
  function Compressed(names: seq<Trail>, text: seq<byte>, lim: nat): seq<byte>
    requires AllValid(names)
  {
    if |Plain(text)| < lim then CutTo(text, Search(names, LabelsOf(text), 0)) else Plain(text)
  }
}
