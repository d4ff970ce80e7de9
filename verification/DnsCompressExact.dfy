/**
 Exactly which names get shorter. `DnsCompressSound` says that a pointer stands for what it replaces; here is when
 there is one, and to where, without the search: a suffix is replaced where its first label, met for the first time in
 the dictionary's names, begins that same suffix.
 */
module DnsCompressExact {
  import opened Bytes
  import opened DnsWalk
  import opened DnsRead
  import opened DnsCompress
  import opened DnsCompressSound

  /** Equal but for the case of ASCII letters. */
  predicate SameLetters(a: seq<byte>, b: seq<byte>) {
    |a| == |b|
    && forall i :: 0 <= i < |a| ==>
         a[i] == b[i] || (65 <= a[i] <= 90 && b[i] == a[i] + 32) || (97 <= a[i] <= 122 && b[i] == a[i] - 32)
  }

  /** What the comparison of two labels sees, when they have no NUL. */
  lemma {:induction false} CaseEqIs(a: seq<byte>, b: seq<byte>)
    requires NoNul(a) && NoNul(b)
    ensures CaseEq(a, b) <==> SameLetters(a, b)
  {
    CStrOfText(a);
    CStrOfText(b);
    if CaseEq(a, b) {
      forall i | 0 <= i < |a| ensures Lower(a[i]) == Lower(b[i]) {
        assert LowerAll(a)[i] == LowerAll(b)[i];
      }
    }
  }

  // ---------------------------------------------------------------- places in the dictionary

  /** The `j`-th label of the `m`-th name is `l`. */
  predicate Occurs(names: seq<Trail>, m: nat, j: nat, l: Label) {
    m < |names| && j < |names[m].labels| && CaseEq(l, names[m].labels[j])
  }

  /** No place before the `j`-th label of the `m`-th name has label `l`. */
  ghost predicate NoneBefore(names: seq<Trail>, m: nat, j: nat, l: Label) {
    forall m': nat, j': nat :: m' < m || (m' == m && j' < j) ==> !Occurs(names, m', j', l)
  }

  /** All of `suffix` stands there. */
  predicate WholeAt(names: seq<Trail>, m: nat, j: nat, suffix: seq<Label>) {
    m < |names| && j < |names[m].labels| && SameNames(names[m].labels[j..], suffix)
  }

  /** The first place with the first label of `suffix` has all of it, and a pointer can reach it. */
  ghost predicate KnownAt(names: seq<Trail>, suffix: seq<Label>, m: nat, j: nat)
    requires AllValid(names)
  {
    suffix != [] && WholeAt(names, m, j, suffix) && NoneBefore(names, m, j, suffix[0]) && names[m].pos[j] < 0x4000
  }

  // ---------------------------------------------------------------- a known suffix is hit

  lemma {:induction false} MatchSame(al: Label, rest: seq<Label>, bs: seq<Label>)
    requires al != [] && AllNonEmpty(rest) && SameNames(bs, [al] + rest)
    ensures Match(al, rest, bs) == ([], [])
    decreases bs
  {
    assert CaseEq(bs[0], ([al] + rest)[0]);
    if rest != [] {
      forall i | 0 <= i < |rest| ensures CaseEq(bs[1..][i], ([rest[0]] + rest[1..])[i]) {
        assert CaseEq(bs[i + 1], ([al] + rest)[i + 1]);
      }
      MatchSame(rest[0], rest[1..], bs[1..]);
    }
  }

  /** Labels that differ leave the label under comparison as it is. */
  lemma {:induction false} NamePasses(t: Trail, i: nat, j: nat, al: Label, rest: seq<Label>)
    requires t.Valid() && i <= j <= |t.labels| && forall n :: i <= n < j ==> !CaseEq(al, t.labels[n])
    requires al != []
    ensures ScanName(t, i, al, rest) == ScanName(t, j, al, rest)
    decreases j - i
  {
    if i < j {
      assert t.labels[i..][0] == t.labels[i];
      NamePasses(t, i + 1, j, al, rest);
    }
  }

  lemma {:induction false} DictPasses(names: seq<Trail>, i: nat, m: nat, al: Label, rest: seq<Label>)
    requires AllValid(names) && i <= m <= |names| && NoneBefore(names, m, 0, al) && al != []
    ensures ScanDict(names, i, al, rest) == ScanDict(names, m, al, rest)
    decreases m - i
  {
    if i < m {
      var t := names[i];
      forall n | 0 <= n < |t.labels| ensures !CaseEq(al, t.labels[n]) {
        assert !Occurs(names, i, n, al);
      }
      NamePasses(t, 0, |t.labels|, al, rest);
      DictPasses(names, i + 1, m, al, rest);
    }
  }

  /** Up to the first place with that label, nothing has changed. */
  lemma FirstIsTried(names: seq<Trail>, m: nat, j: nat, al: Label, rest: seq<Label>)
    requires AllValid(names) && Occurs(names, m, j, al) && NoneBefore(names, m, j, al) && al != []
    ensures ScanDict(names, 0, al, rest)
            == var f := ScanName(names[m], j, al, rest); if f.Hit? then f else ScanDict(names, m + 1, f.stale, rest)
  {
    DictPasses(names, 0, m, al, rest);
    forall n | 0 <= n < j ensures !CaseEq(al, names[m].labels[n]) {
      assert !Occurs(names, m, n, al);
    }
    NamePasses(names[m], 0, j, al, rest);
  }

  lemma WholeOccurs(names: seq<Trail>, suffix: seq<Label>, m: nat, j: nat)
    requires suffix != [] && WholeAt(names, m, j, suffix)
    ensures Occurs(names, m, j, suffix[0])
  {
    assert CaseEq(names[m].labels[j..][0], suffix[0]);
  }

  lemma KnownIsHit(names: seq<Trail>, suffix: seq<Label>, m: nat, j: nat)
    requires AllValid(names) && AllNonEmpty(suffix) && KnownAt(names, suffix, m, j)
    ensures ScanDict(names, 0, suffix[0], suffix[1..]) == Hit(names[m].pos[j])
  {
    WholeOccurs(names, suffix, m, j);
    FirstIsTried(names, m, j, suffix[0], suffix[1..]);
    assert suffix == [suffix[0]] + suffix[1..];
    MatchSame(suffix[0], suffix[1..], names[m].labels[j..]);
  }

  /** If one suffix is known, that one or an earlier one is replaced. */
  lemma {:induction false} KnownIsFound(names: seq<Trail>, ls: seq<Label>, i: nat, k: nat, m: nat, j: nat)
    requires AllValid(names) && AllNonEmpty(ls) && i <= k < |ls| && KnownAt(names, ls[k..], m, j)
    ensures var r := Search(names, ls, i); r.At? && r.k <= k && (i == k ==> r == At(k, names[m].pos[j]))
    decreases k - i
  {
    if i < k {
      KnownIsFound(names, ls, i + 1, k, m, j);
    } else {
      KnownIsHit(names, ls[k..], m, j);
      assert ls[k..][0] == ls[k] && ls[k..][1..] == ls[k + 1..];
    }
  }

  lemma {:induction false} WireGrows(a: seq<Label>, b: seq<Label>)
    ensures |Wire(a)| <= |Wire(a + b)|
  {
    WireAppend(a, b);
  }

  lemma CutShort(names: seq<Trail>, text: seq<byte>, lim: nat, k: nat)
    requires AllValid(names) && |Plain(text)| < lim && k < |LabelsOf(text)|
    requires var r := Search(names, LabelsOf(text), 0); r.At? && r.k <= k
    ensures |Compressed(names, text, lim)| <= |Wire(LabelsOf(text)[..k])| + 2
  {
    var ls, r := LabelsOf(text), Search(names, LabelsOf(text), 0);
    assert ls[..r.k] + ls[r.k..k] == ls[..k];
    WireGrows(ls[..r.k], ls[r.k..k]);
  }

  lemma CutIs(names: seq<Trail>, text: seq<byte>, lim: nat, k: nat, t: nat)
    requires AllValid(names) && |Plain(text)| < lim && k < |LabelsOf(text)|
             && Search(names, LabelsOf(text), 0) == At(k, t)
    requires t < 0x4000
    ensures Compressed(names, text, lim) == Wire(LabelsOf(text)[..k]) + [0xC0 + t / 256, t % 256]
  {
  }

  /** A name with a known suffix takes no more than the labels before it and a pointer. */
  lemma {:induction false} KnownIsShort(names: seq<Trail>, text: seq<byte>, lim: nat, k: nat, m: nat, j: nat)
    requires AllValid(names) && |Plain(text)| < lim && k < |LabelsOf(text)| && KnownAt(names, LabelsOf(text)[k..], m, j)
    ensures |Compressed(names, text, lim)| <= |Wire(LabelsOf(text)[..k])| + 2
    ensures k == 0 ==> Compressed(names, text, lim) == [0xC0 + names[m].pos[j] / 256, names[m].pos[j] % 256]
  {
    var ls := LabelsOf(text);
    KnownIsFound(names, ls, 0, k, m, j);
    CutShort(names, text, lim, k);
    if k == 0 {
      CutIs(names, text, lim, k, names[m].pos[j]);
      assert Wire(ls[..0]) == [];
    }
  }

  // ---------------------------------------------------------------- the first place of a label

  /** The least index from `j` on at which the name has the label. */
  lemma {:induction false} FirstInName(names: seq<Trail>, m: nat, l: Label, n: nat) returns (j: nat)
    requires Occurs(names, m, n, l)
    ensures Occurs(names, m, j, l) && forall i: nat :: i < j ==> !Occurs(names, m, i, l)
    decreases n
  {
    if i: nat :| i < n && Occurs(names, m, i, l) {
      j := FirstInName(names, m, l, i);
    } else {
      j := n;
    }
  }

  lemma {:induction false} FirstPlace(names: seq<Trail>, l: Label, m: nat, n: nat) returns (m': nat, j: nat)
    requires Occurs(names, m, n, l)
    ensures Occurs(names, m', j, l) && NoneBefore(names, m', j, l)
    decreases m
  {
    if m'': nat, i: nat :| m'' < m && Occurs(names, m'', i, l) {
      m', j := FirstPlace(names, l, m'', i);
    } else {
      m' := m;
      j := FirstInName(names, m, l, n);
    }
  }

  /** Every place with the label has all of the suffix, and a pointer can reach it. */
  ghost predicate OnlyWhole(names: seq<Trail>, suffix: seq<Label>)
    requires AllValid(names) && suffix != []
  {
    forall m: nat, j: nat :: Occurs(names, m, j, suffix[0]) ==> WholeAt(names, m, j, suffix) && names[m].pos[j] < 0x4000
  }

  /**
   A suffix that the dictionary has, and has wherever it has its first label, is replaced by a pointer: an earlier one
   may be instead, which is shorter still.
   */
  lemma {:induction false} PresentIsShort(names: seq<Trail>, text: seq<byte>, lim: nat, k: nat, m: nat, j: nat)
    requires AllValid(names) && |Plain(text)| < lim && k < |LabelsOf(text)|
    requires OnlyWhole(names, LabelsOf(text)[k..]) && WholeAt(names, m, j, LabelsOf(text)[k..])
    ensures |Compressed(names, text, lim)| <= |Wire(LabelsOf(text)[..k])| + 2
  {
    var suffix := LabelsOf(text)[k..];
    WholeOccurs(names, suffix, m, j);
    var m', j' := FirstPlace(names, suffix[0], m, j);
    KnownIsShort(names, text, lim, k, m', j');
  }

  // ---------------------------------------------------------------- and nothing else is

  predicate AllDistinct(names: seq<Trail>) {
    forall m :: 0 <= m < |names| ==> Distinct(names[m].labels)
  }

  /** The label was read too far: it is empty, or one behind the first. */
  predicate Stale(al: Label, rest: seq<Label>) {
    al == [] || al in rest
  }

  lemma StaleRepeats(al: Label, rest: seq<Label>, bs: seq<Label>)
    requires al != [] && al in rest && AllNonEmpty(rest) && bs != [] && Match(al, rest, bs) == ([], [])
    ensures !Distinct(bs)
  {
    MatchBoth(al, rest, bs);
    var q :| 0 <= q < |rest| && rest[q] == al;
    assert CaseEq(bs[1..][q], rest[q]);
    assert CaseEq(bs[0], bs[1 + q]);
  }

  /** With a stale label no name without repeated labels is hit. */
  lemma StaleMisses(t: Trail, j: nat, al: Label, rest: seq<Label>)
    requires t.Valid() && j < |t.labels| && Distinct(t.labels) && AllNonEmpty(rest) && Stale(al, rest)
    ensures Match(al, rest, t.labels[j..]) != ([], [])
  {
    var bs := t.labels[j..];
    assert Distinct(bs);
    if Match(al, rest, bs) == ([], []) && al != [] {
      StaleRepeats(al, rest, bs);
    }
  }

  lemma {:induction false} StaleNameMisses(t: Trail, j: nat, al: Label, rest: seq<Label>)
    requires t.Valid() && j <= |t.labels| && Distinct(t.labels) && AllNonEmpty(rest) && Stale(al, rest)
    ensures var f := ScanName(t, j, al, rest); f.Miss? && Stale(f.stale, rest)
    decreases |t.labels| - j
  {
    if j < |t.labels| {
      StaleMisses(t, j, al, rest);
      MatchLeaves(al, rest, t.labels[j..]);
      StaleNameMisses(t, j + 1, Match(al, rest, t.labels[j..]).0, rest);
    }
  }

  lemma {:induction false} StaleDictMisses(names: seq<Trail>, m: nat, al: Label, rest: seq<Label>)
    requires AllValid(names) && m <= |names| && AllDistinct(names) && AllNonEmpty(rest) && Stale(al, rest)
    ensures ScanDict(names, m, al, rest).Miss?
    decreases |names| - m
  {
    if m < |names| {
      StaleNameMisses(names[m], 0, al, rest);
      StaleDictMisses(names, m + 1, ScanName(names[m], 0, al, rest).stale, rest);
    }
  }

  /** Where the first labels agree and no more, the label is stale from then on. */
  lemma AgreeingGoesStale(al: Label, rest: seq<Label>, bs: seq<Label>)
    requires al != [] && AllNonEmpty(rest) && bs != [] && CaseEq(al, bs[0])
    ensures Stale(Match(al, rest, bs).0, rest)
    ensures Match(al, rest, bs) == ([], []) ==> SameNames(bs, [al] + rest)
  {
    MatchLeaves(Head(rest), Tail(rest), bs[1..]);
    if Match(al, rest, bs) == ([], []) {
      MatchBoth(al, rest, bs);
      forall i | 0 <= i < |bs| ensures CaseEq(bs[i], ([al] + rest)[i]) {
        if i > 0 {
          assert CaseEq(bs[1..][i - 1], rest[i - 1]);
        }
      }
    }
  }

  /** A hit is at the first place with that label. */
  lemma HitIsKnown(names: seq<Trail>, suffix: seq<Label>) returns (m: nat, j: nat)
    requires AllValid(names) && AllDistinct(names) && suffix != [] && AllNonEmpty(suffix)
    requires ScanDict(names, 0, suffix[0], suffix[1..]).Hit?
    ensures KnownAt(names, suffix, m, j)
  {
    var al, rest := suffix[0], suffix[1..];
    if m', n :| Occurs(names, m', n, al) {
      m, j := FirstPlace(names, al, m', n);
      FirstIsTried(names, m, j, al, rest);
      var t := names[m];
      var bs := t.labels[j..];
      AgreeingGoesStale(al, rest, bs);
      assert suffix == [al] + rest;
      if !(Match(al, rest, bs) == ([], []) && t.pos[j] <= MAX_TARGET) {
        StaleNameMisses(t, j + 1, Match(al, rest, bs).0, rest);
        StaleDictMisses(names, m + 1, ScanName(t, j, al, rest).stale, rest);
        assert false;
      }
    } else {
      DictPasses(names, 0, |names|, al, rest);
      assert false;
    }
  }

  ghost predicate Known(names: seq<Trail>, suffix: seq<Label>)
    requires AllValid(names)
  {
    exists m: nat, j: nat :: KnownAt(names, suffix, m, j)
  }

  /** From the `i`-th label on, no suffix that begins before the `k`-th is known. */
  ghost predicate UnknownUpTo(names: seq<Trail>, ls: seq<Label>, k: nat)
    requires AllValid(names) && k <= |ls|
  {
    forall i :: 0 <= i < k ==> !Known(names, ls[i..])
  }

  lemma {:induction false} UnknownPassed(names: seq<Trail>, ls: seq<Label>, i: nat, k: nat)
    requires AllValid(names) && AllDistinct(names) && AllNonEmpty(ls) && i <= k <= |ls| && UnknownUpTo(names, ls, k)
    ensures Search(names, ls, i) == Search(names, ls, k)
    decreases k - i
  {
    if i < k {
      assert ls[i..][0] == ls[i] && ls[i..][1..] == ls[i + 1..];
      if ScanDict(names, 0, ls[i], ls[i + 1..]).Hit? {
        var m, j := HitIsKnown(names, ls[i..]);
        assert Known(names, ls[i..]);
        assert false;
      }
      UnknownPassed(names, ls, i + 1, k);
    }
  }

  /**
   What is written, to the octet, if no name of the dictionary repeats a label: the first known suffix is replaced.
   */
  lemma {:induction false} ReplacedExactly(names: seq<Trail>, text: seq<byte>, lim: nat, k: nat, m: nat, j: nat)
    requires AllValid(names) && AllDistinct(names) && |Plain(text)| < lim
    requires k < |LabelsOf(text)| && UnknownUpTo(names, LabelsOf(text), k) && KnownAt(names, LabelsOf(text)[k..], m, j)
    ensures Compressed(names, text, lim)
            == Wire(LabelsOf(text)[..k]) + [0xC0 + names[m].pos[j] / 256, names[m].pos[j] % 256]
  {
    var ls := LabelsOf(text);
    UnknownPassed(names, ls, 0, k);
    KnownIsFound(names, ls, k, k, m, j);
    CutIs(names, text, lim, k, names[m].pos[j]);
  }

  /** And the whole name stays if none is known. */
  lemma {:induction false} KeptExactly(names: seq<Trail>, text: seq<byte>, lim: nat)
    requires AllValid(names) && AllDistinct(names) && UnknownUpTo(names, LabelsOf(text), |LabelsOf(text)|)
    ensures Compressed(names, text, lim) == Plain(text)
  {
    UnknownPassed(names, LabelsOf(text), 0, |LabelsOf(text)|);
  }

  // ---------------------------------------------------------------- a name that is known and written again

  const A: byte := 97
  const B: byte := 98
  const C: byte := 99

  /** `a.b` at offset 12 and `a.c` at offset 17. */
  const TWO_NAMES: seq<Trail> := [Trail([12, 14, 16], [[A], [B]]), Trail([17, 19, 21], [[A], [C]])]

  lemma KnownLabels()
    ensures LabelsOf([A, DOT, C]) == [[A], [C]] && |Plain([A, DOT, C])| == 5
  {
    var text := [A, DOT, C];
    assert text[2..3] == [C] && text[0..1] == [A];
    assert SplitFrom(text, 2, 2) == SplitFrom(text, 2, 3) == [[C]];
    assert SplitFrom(text, 0, 1) == [[A]] + SplitFrom(text, 2, 2);
    assert Segments(text) == [[A], [C]];
    assert [[A], [C]][1..] == [[C]];
    assert NonEmptyPrefix([[C]]) == [[C]];
    assert Wire([[C]]) == [1, C];
    assert Wire([[A], [C]]) == [1, A] + Wire([[C]]);
  }

  lemma KnownPlaces()
    ensures AllDistinct(TWO_NAMES) && WholeAt(TWO_NAMES, 1, 0, [[A], [C]]) && KnownAt(TWO_NAMES, [[C]], 1, 1)
  {
    CaseEqIs([A], [B]);
    CaseEqIs([A], [C]);
    CaseEqIs([B], [C]);
    assert TWO_NAMES[1].labels[1..] == [[C]];
    assert WholeAt(TWO_NAMES, 1, 1, [[C]]);
  }

  lemma FirstUnknown()
    ensures UnknownUpTo(TWO_NAMES, [[A], [C]], 1)
  {
    var suffix := [[A], [C]];
    assert suffix[0..] == suffix;
    CaseEqIs([B], [C]);
    assert Occurs(TWO_NAMES, 0, 0, [A]);
    forall m: nat, j: nat ensures !KnownAt(TWO_NAMES, suffix, m, j) {
      if m < 2 && j < 2 && WholeAt(TWO_NAMES, m, j, suffix) {
        var bs := TWO_NAMES[m].labels[j..];
        assert CaseEq(bs[1], suffix[1]);
      }
    }
  }

  /** `a.c` is in the dictionary, and its label `a` is written again: it stands in `a.b` first. */
  lemma {:induction false} StaleLabelLengthens()
    ensures WholeAt(TWO_NAMES, 1, 0, LabelsOf([A, DOT, C]))
    ensures Compressed(TWO_NAMES, [A, DOT, C], 6) == [1, A, 0xC0, 19]
  {
    KnownLabels();
    KnownPlaces();
    FirstUnknown();
    assert [[A], [C]][1..] == [[C]] && [[A], [C]][..1] == [[A]];
    ReplacedExactly(TWO_NAMES, [A, DOT, C], 6, 1, 1, 1);
    assert Wire([[A]]) == [1, A];
  }
}
