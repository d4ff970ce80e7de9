/**
 A run on which a name reads wrongly after a record that was refused.
 */
module DnsFailures {
  import opened Wrappers
  import opened Bytes
  import opened DnsWalk
  import opened DnsRead
  import opened DnsCompress
  import opened DnsCompressSound
  import opened DnsDict
  import opened DnsSections
  import opened DnsRecords
  import opened DnsPush
  import opened DnsPacket
  import opened DnsLimits
  import opened DnsParse
  import opened DnsRuns

  // ---------------------------------------------------------------- names of one label

  predicate Simple(l: Label) {
    LabelFits(l) && DOT !in l
  }

  lemma {:induction false} NoDots(s: seq<byte>, x: nat)
    requires x <= |s| && s != [] && DOT !in s
    ensures SplitFrom(s, 0, x) == [s]
    decreases |s| - x
  {
    if x < |s| {
      NoDots(s, x + 1);
    } else {
      assert s[0..|s|] == s;
    }
  }

  lemma SimpleName(l: Label)
    requires Simple(l)
    ensures IsName(l) && LabelsOf(l) == [l] && Plain(l) == [|l|] + l + [0]
  {
    NoDots(l, 0);
    assert Wire([l]) == [|l|] + l + Wire([]);
    assert NonEmptyPrefix([l]) == [l] + NonEmptyPrefix([l][1..]);
  }

  /** The label `l` stands at `p`, and the octet `c` behind it. */
  predicate OneAt(d: seq<byte>, p: nat, l: Label, c: byte) {
    12 <= p && LabelFits(l) && p + |l| + 2 <= |d| && d[p] == |l| && Stands(d, p + 1, l) && d[p + 1 + |l|] == c
  }

  /** What a search sees at `p`: at most one label. */
  predicate Shows(d: seq<byte>, p: nat, ls: seq<Label>) {
    Readable(d, p) && LabelsAt(Packet(d), p) == ls
  }

  /** A zero octet ends the name, and so, for a search, does an octet that begins nothing. */
  lemma OneShows(d: seq<byte>, p: nat, l: Label, c: byte)
    requires OneAt(d, p, l, c) && (c == 0 || c / 64 == 2)
    ensures Shows(d, p, [l])
    ensures Walk(View(d, 0, MAX_POINTERS), p, |d|, 0) == Name(More(l, Nil), c == 0)
  {
    var q := p + 1 + |l|;
    LabelReads(Packet(d), p, |d|, l);
    assert Walk(Packet(d), q, |d|, 0) == Name(Nil, c == 0);
    WalkRelax(Packet(d), p, |d|, 0, 0, |d|);
    assert ToSeq(More(l, Nil)) == [l] + ToSeq(Nil);
  }

  lemma EndShows(d: seq<byte>, p: nat)
    requires 12 <= |d| <= p
    ensures Shows(d, p, [])
  {
  }

  /** The entries in use. */
  predicate Holds(dict: seq<nat>, us: seq<nat>) {
    |dict| == DICT_SIZE && ZeroTail(dict) && Used(dict) == us
  }

  lemma HoldsMore(d: seq<byte>, dict: seq<nat>, us: seq<nat>, dn: nat)
    requires Holds(dict, us) && |us| < DICT_SIZE && dn != 0 && InlineTarget(d, dn, dn) == None
    ensures Holds(DictAdded(d, dict, dn), us + [dn])
  {
    var dict' := DictAdded(d, dict, dn);
    assert us == dict[..|us|];
    UsedIs(dict', |us| + 1);
    assert dict'[..|us| + 1] == us + [dn];
  }

  /** The dictionary's names show `hs`. */
  predicate Heads(names: seq<Trail>, us: seq<nat>, hs: seq<seq<Label>>) {
    |names| == |hs| == |us| && AllValid(names)
    && forall i :: 0 <= i < |hs| ==> names[i].labels == hs[i] && names[i].pos[0] == us[i]
  }

  lemma NamesShow(d: seq<byte>, dict: seq<nat>, us: seq<nat>, hs: seq<seq<Label>>)
    requires Holds(dict, us) && |us| == |hs| && forall i :: 0 <= i < |us| ==> Shows(d, us[i], hs[i])
    ensures Heads(NamesOf(d, dict), us, hs)
  {
    assert us == dict[..|us|];
    forall i | 0 <= i < |us| ensures Readable(d, dict[i]) && LabelsAt(Packet(d), dict[i]) == hs[i] {
      assert Shows(d, us[i], hs[i]) && dict[i] == us[i];
    }
  }

  predicate Differs(l: Label, h: seq<Label>) {
    h == [] || (|h| == 1 && !CaseEq(l, h[0]))
  }

  lemma ScanOther(t: Trail, l: Label)
    requires t.Valid() && l != [] && Differs(l, t.labels)
    ensures ScanName(t, 0, l, []) == Miss(l)
  {
    if t.labels != [] {
      assert t.labels[0..] == t.labels;
      assert Match(l, [], t.labels) == (l, t.labels);
      assert ScanName(t, 1, l, []) == Miss(l);
    }
  }

  lemma {:induction false} ScanOthers(names: seq<Trail>, us: seq<nat>, hs: seq<seq<Label>>, i: nat, k: nat, l: Label)
    requires Heads(names, us, hs) && i <= k <= |hs| && l != [] && forall j :: i <= j < k ==> Differs(l, hs[j])
    ensures ScanDict(names, i, l, []) == ScanDict(names, k, l, [])
    decreases k - i
  {
    if i < k {
      assert Differs(l, hs[i]);
      ScanOther(names[i], l);
      ScanOthers(names, us, hs, i + 1, k, l);
    }
  }

  lemma FindsNothing(names: seq<Trail>, us: seq<nat>, hs: seq<seq<Label>>, l: Label)
    requires Heads(names, us, hs) && l != [] && forall j :: 0 <= j < |hs| ==> Differs(l, hs[j])
    ensures Search(names, [l], 0) == Nowhere
  {
    ScanOthers(names, us, hs, 0, |hs|, l);
    assert [l][0] == l && [l][1..] == [];
    assert Search(names, [l], 1) == Nowhere;
  }

  lemma FindsEntry(names: seq<Trail>, us: seq<nat>, hs: seq<seq<Label>>, l: Label, k: nat)
    requires Heads(names, us, hs) && l != [] && k < |hs| && hs[k] == [l] && us[k] <= MAX_TARGET
    requires forall j :: 0 <= j < k ==> Differs(l, hs[j])
    ensures Search(names, [l], 0) == At(0, us[k])
  {
    ScanOthers(names, us, hs, 0, k, l);
    assert [l][0] == l && [l][1..] == [];
    var t := names[k];
    assert t.labels[0..] == [l];
    assert Match([], [], []) == ([], []);
    assert Match(l, [], [l]) == Match([], [], []);
    assert ScanName(t, 0, l, []) == Hit(us[k]);
  }

  // ---------------------------------------------------------------- pushing them

  /** An owner name that shares nothing with the dictionary is written in full, and let in. */
  lemma PushesFull(b: Body, us: seq<nat>, hs: seq<seq<Label>>, size: nat, l: Label) returns (n: Body)
    requires Holds(b.dict, us) && |us| < DICT_SIZE && Heads(NamesOf(b.d, b.dict), us, hs) && 12 <= |b.d|
    requires Simple(l) && (forall j :: 0 <= j < |hs| ==> Differs(l, hs[j])) && |b.d| + |l| + 2 <= size
    ensures PushName(b, size, l) == Some(n) && n.d == b.d + ([|l|] + l + [0]) && Holds(n.dict, us + [|b.d|])
  {
    var names, w := NamesOf(b.d, b.dict), [|l|] + l + [0];
    SimpleName(l);
    FindsNothing(names, us, hs, l);
    n := Body(b.d + w, DictAdded(b.d + w, b.dict, |b.d|));
    assert Stands(b.d + w, |b.d|, w);
    InlineOfWritten(names, l, size - |b.d|, b.d + w, |b.d|);
    HoldsMore(b.d + w, b.dict, us, |b.d|);
  }

  lemma HostPayload(names: seq<Trail>, room: nat, l: Label, w: seq<byte>)
    requires AllValid(names) && 1 <= room && w == Compressed(names, l, room) && |w| <= room
    ensures Payload(names, room, Host(l)) == Some(w)
  {
    assert [] + w == w;
  }

  lemma HostWith(f: Body, names: seq<Trail>, size: nat, l: Label, w: seq<byte>, d: seq<byte>)
    requires AllValid(names) && |f.d| + 3 + |w| <= size && w == Compressed(names, l, size - |f.d| - 2)
    requires d == f.d + Be16(|w|) + w
    ensures PushDataWith(f, names, size, Host(l)) == Some(Body(d, DictAdded(d, f.dict, |f.d| + 2)))
  {
    HostPayload(names, size - |f.d| - 2, l, w);
  }

  lemma DataWith(f: Body, size: nat, rd: RData, names: seq<Trail>, b: Body)
    requires names == NamesOf(f.d, f.dict) && PushDataWith(f, names, size, rd) == Some(b)
    ensures PushData(f, size, rd) == Some(b)
  {
  }

  lemma HostData(f: Body, names: seq<Trail>, size: nat, l: Label, w: seq<byte>, d: seq<byte>)
    requires names == NamesOf(f.d, f.dict) && |f.d| + 3 + |w| <= size && w == Compressed(names, l, size - |f.d| - 2)
    requires d == f.d + Be16(|w|) + w
    ensures PushData(f, size, Host(l)) == Some(Body(d, DictAdded(d, f.dict, |f.d| + 2)))
  {
    HostWith(f, names, size, l, w, d);
    DataWith(f, size, Host(l), names, Body(d, DictAdded(d, f.dict, |f.d| + 2)));
  }

  lemma HostRecorded(f: Body, names: seq<Trail>, us: seq<nat>, l: Label, lim: nat, w: seq<byte>, d: seq<byte>)
    requires Holds(f.dict, us) && |us| < DICT_SIZE && AllValid(names) && IsName(l)
    requires w == Compressed(names, l, lim) && Replaced(names, l, lim) == None && d == f.d + Be16(|w|) + w
    ensures Holds(DictAdded(d, f.dict, |f.d| + 2), us + [|f.d| + 2])
  {
    assert Stands(d, |f.d| + 2, w);
    InlineOfWritten(names, l, lim, d, |f.d| + 2);
    HoldsMore(d, f.dict, us, |f.d| + 2);
  }

  /** The same for a name in the data of an NS record. */
  lemma PushesHost(f: Body, us: seq<nat>, hs: seq<seq<Label>>, size: nat, l: Label) returns (b: Body)
    requires Holds(f.dict, us) && |us| < DICT_SIZE && Heads(NamesOf(f.d, f.dict), us, hs) && 12 <= |f.d|
    requires Simple(l) && (forall j :: 0 <= j < |hs| ==> Differs(l, hs[j])) && |f.d| + |l| + 5 <= size
    ensures PushData(f, size, Host(l)) == Some(b) && f.d <= b.d && Holds(b.dict, us + [|f.d| + 2])
  {
    var names := NamesOf(f.d, f.dict);
    SimpleName(l);
    FindsNothing(names, us, hs, l);
    var w := Compressed(names, l, size - |f.d| - 2);
    b := Body(f.d + Be16(|w|) + w, DictAdded(f.d + Be16(|w|) + w, f.dict, |f.d| + 2));
    HostData(f, names, size, l, w, b.d);
    HostRecorded(f, names, us, l, size - |f.d| - 2, w, b.d);
  }

  /** A name that the dictionary has, as a search sees it, becomes a pointer. */
  lemma PointsHost(f: Body, us: seq<nat>, hs: seq<seq<Label>>, size: nat, l: Label, k: nat) returns (b: Body)
    requires Holds(f.dict, us) && Heads(NamesOf(f.d, f.dict), us, hs) && 12 <= |f.d|
    requires Simple(l) && k < |hs| && hs[k] == [l] && us[k] <= MAX_TARGET
             && (forall j :: 0 <= j < k ==> Differs(l, hs[j]))
    requires |f.d| + |l| + 5 <= size
    ensures PushData(f, size, Host(l)) == Some(b) && b.d == f.d + Be16(2) + PointerTo(us[k])
  {
    var names := NamesOf(f.d, f.dict);
    SimpleName(l);
    FindsEntry(names, us, hs, l, k);
    assert Wire([l][..0]) == [];
    var w := PointerTo(us[k]);
    assert [] + w == w;
    b := Body(f.d + Be16(|w|) + w, DictAdded(f.d + Be16(|w|) + w, f.dict, |f.d| + 2));
    HostData(f, names, size, l, w, b.d);
  }

  /** A record with its owner name, its fixed octets and its data written. */
  lemma Pushes(s: State, size: nat, e: Entry, n: Body, f: Body, b: Body)
    requires HEADER <= |s.d| && e.section != QD && PushName(Body(s.d, s.dict), size, e.name) == Some(n)
    requires f == Headed(n, e) && |f.d| + 2 <= size && PushData(f, size, e.rd) == Some(b) && s.d <= b.d
    ensures Push(s, size, e) == if Verdict(s.d, e.section) != Done then (Verdict(s.d, e.section), s.(dict := b.dict))
                                else (Done, Entered(s.memos, b, Index(e.section)))
  {
    assert Written(s, size, e) == Some(b);
    SameVerdict(s.d, b.d, e.section);
  }

  // ---------------------------------------------------------------- a refused record

  const LA: Label := [97]
  const LB: Label := [98]
  const LC: Label := [99]
  const LX: Label := [120]
  /** Twelve times c, and then octets that look like the label b and the start of nothing. */
  const LONG: Label := [99, 99, 99, 99, 99, 99, 99, 99, 99, 99, 99, 99, 1, 98, 128]

  /** A record in the additional section, so that nothing may be pushed to the answers. */
  const FIRST := Entry(AR, LA, 10, 1, 0, Raw([]))
  /** An NS record for the answers: refused, but its owner name and the name of its data are in the dictionary. */
  const REFUSED := Entry(AN, LX, T_NS, 1, 0, Host(LB))
  /** An NS record whose owner name comes to lie where the refused record's data was. */
  const SECOND := Entry(AR, LONG, T_NS, 1, 0, Host(LB))

  lemma Unlike(a: Label, b: Label)
    requires a != [] && b != [] && NoNul(a) && NoNul(b) && (|a| != |b| || Lower(a[0]) != Lower(b[0]))
    ensures !CaseEq(a, b)
  {
    CStrOfText(a);
    CStrOfText(b);
    assert |LowerAll(a)| == |a| && |LowerAll(b)| == |b|;
    assert LowerAll(a)[0] == Lower(a[0]) && LowerAll(b)[0] == Lower(b[0]);
  }

  lemma OneGrows(d: seq<byte>, d': seq<byte>, p: nat, l: Label, c: byte)
    requires OneAt(d, p, l, c) && SameBody(d', d)
    ensures OneAt(d', p, l, c)
  {
  }

  lemma OneWritten(d: seq<byte>, l: Label, d': seq<byte>)
    requires 12 <= |d| && LabelFits(l) && d' == d + ([|l|] + l + [0])
    ensures OneAt(d', |d|, l, 0) && SameBody(d', d)
  {
    assert Stands(d', |d|, [|l|] + l + [0]);
    StandsParts(d', |d|, [|l|] + l, [0]);
    StandsParts(d', |d|, [|l|], l);
    assert d'[|d| + 0] == [|l|][0] && d'[|d| + |[|l|] + l| + 0] == [0][0];
  }

  /** The packet that holds `FIRST`, with the entries `us` in its dictionary. */
  predicate HasFirst(s: State, us: seq<nat>) {
    |s.d| == 25 && OneAt(s.d, 12, LA, 0) && Holds(s.dict, us)
    && Count(s.d, 0) == 0 && Count(s.d, 1) == 0 && Count(s.d, 2) == 0 && Count(s.d, 3) == 1
  }

  lemma Counted(d: seq<byte>, d': seq<byte>)
    requires HEADER <= |d| && Count(d, 3) < 65535 && d' == CountedUp(d, 3)
    ensures SameBody(d', d) && |d'| == |d| && Count(d', 3) == Count(d, 3) + 1 && Count(d', 0) == Count(d, 0)
    ensures Count(d', 1) == Count(d, 1) && Count(d', 2) == Count(d, 2)
  {
    CountsUp(d, 3, d');
  }

  lemma FirstWritten(s: State, size: nat) returns (n: Body, b: Body)
    requires 64 <= size <= 65535 && |s.d| == 12 && Holds(s.dict, []) && Verdict(s.d, AR) == Done
    ensures s.d <= b.d && |b.d| == 25 && b.dict == n.dict && Push(s, size, FIRST) == (Done, Entered(s.memos, b, 3))
    ensures Holds(n.dict, [12]) && OneAt(n.d, 12, LA, 0) && SameBody(b.d, n.d)
  {
    NamesShow(s.d, s.dict, [], []);
    n := PushesFull(Body(s.d, s.dict), [], [], size, LA);
    OneWritten(s.d, LA, n.d);
    var f := Headed(n, FIRST);
    b := Body(f.d + Be16(0) + [], n.dict);
    Pushes(s, size, FIRST, n, f, b);
    assert [] + [12] == [12];
  }

  lemma FirstPush(s: State, size: nat) returns (s': State)
    requires 64 <= size <= 65535 && |s.d| == 12 && Holds(s.dict, [])
    requires Count(s.d, 0) == 0 && Count(s.d, 1) == 0 && Count(s.d, 2) == 0 && Count(s.d, 3) == 0
    ensures Push(s, size, FIRST) == (Done, s') && HasFirst(s', [12])
  {
    var n, b := FirstWritten(s, size);
    KeepsHeader(s.d, b.d);
    s' := Entered(s.memos, b, 3);
    Counted(b.d, s'.d);
    OneGrows(n.d, s'.d, 12, LA, 0);
  }

  lemma EmptyHolds()
    ensures |EMPTY.d| == 12 && Holds(EMPTY.dict, [])
    ensures Count(EMPTY.d, 0) == 0 && Count(EMPTY.d, 1) == 0 && Count(EMPTY.d, 2) == 0 && Count(EMPTY.d, 3) == 0
  {
  }

  lemma RefusedOwner(s: State, size: nat) returns (n: Body)
    requires 64 <= size <= 65535 && HasFirst(s, [12])
    ensures PushName(Body(s.d, s.dict), size, LX) == Some(n) && s.d <= n.d && SameBody(n.d, s.d)
    ensures |n.d| == 28 && OneAt(n.d, 12, LA, 0) && OneAt(n.d, 25, LX, 0) && Holds(n.dict, [12, 25])
  {
    OneShows(s.d, 12, LA, 0);
    NamesShow(s.d, s.dict, [12], [[LA]]);
    Unlike(LX, LA);
    n := PushesFull(Body(s.d, s.dict), [12], [[LA]], size, LX);
    OneWritten(s.d, LX, n.d);
    OneGrows(s.d, n.d, 12, LA, 0);
    assert [12] + [25] == [12, 25];
  }

  lemma RefusedData(n: Body, f: Body, size: nat) returns (b: Body)
    requires 64 <= size <= 65535 && |n.d| == 28 && |f.d| == 36 && f.dict == n.dict && SameBody(f.d, n.d)
    requires OneAt(n.d, 12, LA, 0) && OneAt(n.d, 25, LX, 0) && Holds(n.dict, [12, 25])
    ensures PushData(f, size, Host(LB)) == Some(b) && f.d <= b.d && Holds(b.dict, [12, 25, 38])
  {
    OneGrows(n.d, f.d, 12, LA, 0);
    OneGrows(n.d, f.d, 25, LX, 0);
    OneShows(f.d, 12, LA, 0);
    OneShows(f.d, 25, LX, 0);
    NamesShow(f.d, f.dict, [12, 25], [[LA], [LX]]);
    Unlike(LB, LA);
    Unlike(LB, LX);
    b := PushesHost(f, [12, 25], [[LA], [LX]], size, LB);
    assert [12, 25] + [38] == [12, 25, 38];
  }

  lemma HeadedGrows(n: Body, e: Entry, f: Body)
    requires 12 <= |n.d| && f == Headed(n, e)
    ensures SameBody(f.d, n.d) && n.d <= f.d && |f.d| == |n.d| + 8 && f.dict == n.dict
  {
  }

  lemma AnswersClosed(s: State, us: seq<nat>)
    requires HasFirst(s, us)
    ensures Verdict(s.d, AN) == OutOfOrder && Verdict(s.d, AR) == Done
  {
    assert Later(s.d, 2) == Count(s.d, 3);
    assert Later(s.d, 1) == Count(s.d, 2) + Later(s.d, 2);
  }

  lemma RefusedPush(s: State, size: nat) returns (s': State)
    requires 64 <= size <= 65535 && HasFirst(s, [12])
    ensures Push(s, size, REFUSED) == (OutOfOrder, s') && s' == s.(dict := s'.dict) && HasFirst(s', [12, 25, 38])
  {
    var n := RefusedOwner(s, size);
    var f := Headed(n, REFUSED);
    HeadedGrows(n, REFUSED, f);
    var b := RefusedData(n, f, size);
    AnswersClosed(s, [12]);
    Pushes(s, size, REFUSED, n, f, b);
    s' := s.(dict := b.dict);
  }

  /** The packet in the end: the data of its second record is a pointer to octet 38, where no name stands. */
  predicate Misled(s: State) {
    |s.d| == 54 && OneAt(s.d, 12, LA, 0) && OneAt(s.d, 25, LONG, 0) && OneAt(s.d, 38, LB, 128)
    && s.d[42..46] == Fixed(T_NS, 1) && Read16(s.d, 50) == 2 && s.d[52] == 192 && s.d[53] == 38
    && Count(s.d, 0) == 0
  }

  lemma LongHolds(d: seq<byte>)
    requires OneAt(d, 25, LONG, 0)
    ensures OneAt(d, 38, LB, 128)
  {
    assert d[26 + 12] == LONG[12] && d[26 + 13] == LONG[13] && d[26 + 14] == LONG[14];
  }

  lemma LastOwner(s: State, size: nat, l: Label) returns (n: Body)
    requires 64 <= size <= 65535 && HasFirst(s, [12, 25, 38]) && Simple(l) && NoNul(l) && |l| == 15
    ensures PushName(Body(s.d, s.dict), size, l) == Some(n) && s.d <= n.d
    ensures |n.d| == 42 && OneAt(n.d, 12, LA, 0) && OneAt(n.d, 25, l, 0) && Holds(n.dict, [12, 25, 38, 25])
  {
    OneShows(s.d, 12, LA, 0);
    EndShows(s.d, 25);
    EndShows(s.d, 38);
    NamesShow(s.d, s.dict, [12, 25, 38], [[LA], [], []]);
    Unlike(l, LA);
    n := PushesFull(Body(s.d, s.dict), [12, 25, 38], [[LA], [], []], size, l);
    OneWritten(s.d, l, n.d);
    OneGrows(s.d, n.d, 12, LA, 0);
    assert [12, 25, 38] + [25] == [12, 25, 38, 25];
  }

  lemma LastNames(n: Body, f: Body)
    requires SameBody(f.d, n.d) && f.dict == n.dict
    requires OneAt(n.d, 12, LA, 0) && OneAt(n.d, 25, LONG, 0) && Holds(n.dict, [12, 25, 38, 25])
    ensures Heads(NamesOf(f.d, f.dict), [12, 25, 38, 25], [[LA], [LONG], [LB], [LONG]])
  {
    OneGrows(n.d, f.d, 12, LA, 0);
    OneGrows(n.d, f.d, 25, LONG, 0);
    LongHolds(f.d);
    OneShows(f.d, 12, LA, 0);
    OneShows(f.d, 25, LONG, 0);
    OneShows(f.d, 38, LB, 128);
    NamesShow(f.d, f.dict, [12, 25, 38, 25], [[LA], [LONG], [LB], [LONG]]);
  }

  lemma LastHost(f: Body, us: seq<nat>, hs: seq<seq<Label>>, size: nat) returns (b: Body)
    requires 64 <= size && |f.d| == 50 && Holds(f.dict, us) && Heads(NamesOf(f.d, f.dict), us, hs)
    requires |us| == 4 && us[2] == 38 && hs[2] == [LB] && Differs(LB, hs[0]) && Differs(LB, hs[1])
    ensures PushData(f, size, Host(LB)) == Some(b) && b.d == f.d + Be16(2) + PointerTo(38)
  {
    b := PointsHost(f, us, hs, size, LB, 2);
  }

  lemma LastData(n: Body, f: Body, size: nat) returns (b: Body)
    requires 64 <= size <= 65535 && |n.d| == 42 && |f.d| == 50 && SameBody(f.d, n.d) && f.dict == n.dict
    requires OneAt(n.d, 12, LA, 0) && OneAt(n.d, 25, LONG, 0) && Holds(n.dict, [12, 25, 38, 25])
    ensures PushData(f, size, Host(LB)) == Some(b) && b.d == f.d + Be16(2) + PointerTo(38)
  {
    LastNames(n, f);
    Unlike(LB, LA);
    Unlike(LB, LONG);
    b := LastHost(f, [12, 25, 38, 25], [[LA], [LONG], [LB], [LONG]], size);
  }

  lemma LastIsMisled(n: Body, f: Body, b: Body, d': seq<byte>)
    requires |n.d| == 42 && OneAt(n.d, 12, LA, 0) && OneAt(n.d, 25, LONG, 0) && f.d == n.d + Fixed(T_NS, 1) + Ttl(0)
    requires b.d == f.d + Be16(2) + PointerTo(38) && SameBody(d', b.d) && |d'| == |b.d| && Count(d', 0) == 0
    ensures Misled(State(d', b.dict, UNSTUDIED))
  {
    OneGrows(n.d, d', 12, LA, 0);
    OneGrows(n.d, d', 25, LONG, 0);
    LongHolds(d');
    assert b.d[42..46] == Fixed(T_NS, 1) && d'[42..46] == b.d[42..46];
    assert b.d[50..52] == Be16(2) && b.d[52..54] == PointerTo(38);
    assert b.d[50] == Be16(2)[0] && b.d[51] == Be16(2)[1] && b.d[52] == PointerTo(38)[0] && b.d[53] == PointerTo(38)[1];
  }

  lemma LastParts(s: State, size: nat) returns (n: Body, f: Body, b: Body)
    requires 64 <= size <= 65535 && HasFirst(s, [12, 25, 38])
    ensures s.d <= n.d && n.d <= f.d && f.d <= b.d && |b.d| == 54 && f == Headed(n, SECOND)
    ensures PushName(Body(s.d, s.dict), size, LONG) == Some(n) && PushData(f, size, Host(LB)) == Some(b)
    ensures |n.d| == 42 && OneAt(n.d, 12, LA, 0) && OneAt(n.d, 25, LONG, 0) && b.d == f.d + Be16(2) + PointerTo(38)
  {
    n := LastOwner(s, size, LONG);
    f := Headed(n, SECOND);
    HeadedGrows(n, SECOND, f);
    b := LastData(n, f, size);
  }

  lemma LastPush(s: State, size: nat) returns (s': State)
    requires 64 <= size <= 65535 && HasFirst(s, [12, 25, 38])
    ensures Push(s, size, SECOND) == (Done, s') && Misled(s')
  {
    AnswersClosed(s, [12, 25, 38]);
    var n, f, b := LastWritten(s, size);
    s' := Entered(s.memos, b, 3);
    LastCounted(s, n, f, b, s');
  }

  lemma LastWritten(s: State, size: nat) returns (n: Body, f: Body, b: Body)
    requires 64 <= size <= 65535 && HasFirst(s, [12, 25, 38]) && Verdict(s.d, AR) == Done
    ensures s.d <= b.d && HEADER <= |b.d| && Push(s, size, SECOND) == (Done, Entered(s.memos, b, 3))
            && f == Headed(n, SECOND)
    ensures |n.d| == 42 && OneAt(n.d, 12, LA, 0) && OneAt(n.d, 25, LONG, 0) && b.d == f.d + Be16(2) + PointerTo(38)
  {
    n, f, b := LastParts(s, size);
    Pushes(s, size, SECOND, n, f, b);
  }

  lemma LastCounted(s: State, n: Body, f: Body, b: Body, s': State)
    requires HasFirst(s, [12, 25, 38]) && s.d <= b.d && s' == Entered(s.memos, b, 3) && f == Headed(n, SECOND)
    requires |n.d| == 42 && OneAt(n.d, 12, LA, 0) && OneAt(n.d, 25, LONG, 0) && b.d == f.d + Be16(2) + PointerTo(38)
    ensures Misled(s')
  {
    KeepsHeader(s.d, b.d);
    Counted(b.d, s'.d);
    LastIsMisled(n, f, b, s'.d);
  }

  lemma MisledParses(s: State, room: Room)
    requires Misled(s)
    ensures RrParse(s.d, 25).Some? && RrParse(s.d, 25).value.typ == T_NS && RrParse(s.d, 25).value.rdp == 52
    ensures RrParse(s.d, 25).value.rdlen == 2 && ParseData(s.d, RrParse(s.d, 25).value, room) == None
  {
    var d, v := s.d, View(s.d, 0, MAX_POINTERS);
    assert Skip(d, 41) == 42 && Skip(d, 25) == Skip(d, 41);
    assert QEnd(d) == 12;
    FixedRead(d, 42, T_NS, 1);
    assert Target(d, 52) == 38;
    assert d[39..40] == [98];
    assert Walk(v, 40, 52, 0) == Name(Nil, false);
    assert Walk(v, 38, 52, 1) == Cons([98], Walk(v, 40, 52, 0));
    assert Walk(v, 52, |d|, 0) == Walk(v, 38, 52, 1);
  }

  /**
   Three pushes to an empty packet, the second of which is refused.  The third is taken but does not read back: the
   name in its data, b, is found in the dictionary at octet 38, which the refused record left behind, and
   written as a pointer into the label of its own owner name.  Parsing it gives DNS_EILLEGAL.
   */
  lemma {:induction false} RefusedMisleads(size: nat, room: Room) returns (s1: State, s2: State, s3: State)
    requires 64 <= size <= 65535
    ensures Push(EMPTY, size, FIRST) == (Done, s1) && HEADER <= |s1.d|
    ensures Push(s1, size, REFUSED) == (OutOfOrder, s2) && s2.d == s1.d && |s1.d| == 25
    ensures Push(s2, size, SECOND) == (Done, s3) && SECOND.rd == Host(LB)
    ensures HEADER <= |s3.d| && RrParse(s3.d, 25).Some?
    ensures var rr := RrParse(s3.d, 25).value;
            rr.typ == T_NS && rr.rdp + rr.rdlen <= |s3.d| && ParseData(s3.d, rr, room) == None
  {
    EmptyHolds();
    s1 := FirstPush(EMPTY, size);
    s2 := RefusedPush(s1, size);
    s3 := LastPush(s2, size);
    MisledParses(s3, room);
  }
}
