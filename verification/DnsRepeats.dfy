/**
 Which names do harm in the dictionary: exactly those in which a label occurs twice.  For each of them there are two
 other names such that, pushed before and after it, the last one reads as something else.
 */
module DnsRepeats {
  import opened Wrappers
  import opened Bytes
  import opened DnsWalk
  import opened DnsRead
  import opened DnsCompress
  import opened DnsCompressSound
  import opened DnsCompressLoops
  import opened DnsText
  import opened DnsDict
  import opened DnsSections
  import opened DnsRecords
  import opened DnsPush
  import opened DnsPacket
  import opened DnsLimits
  import opened DnsParse
  import opened DnsRoundTrip
  import opened DnsRuns
  import opened DnsFailures

  // ---------------------------------------------------------------- the search

  /** The comparison loop on two suffixes. */
  function Compared(a: seq<Label>, b: seq<Label>): (Label, seq<Label>) {
    Match(Head(a), Tail(a), b)
  }

  /** It goes on over labels that agree. */
  lemma {:induction false} Agreed(a: seq<Label>, b: seq<Label>, n: nat)
    requires n <= |a| && n <= |b| && AllNonEmpty(a) && forall i :: 0 <= i < n ==> CaseEq(a[i], b[i])
    ensures Compared(a, b) == Compared(a[n..], b[n..])
    decreases n
  {
    if n == 0 {
      assert a[0..] == a && b[0..] == b;
    } else {
      forall i | 0 <= i < n - 1 ensures CaseEq(a[1..][i], b[1..][i]) {
        assert CaseEq(a[i + 1], b[i + 1]);
      }
      assert CaseEq(a[0], b[0]);
      Agreed(a[1..], b[1..], n - 1);
      assert a[1..][n - 1..] == a[n..] && b[1..][n - 1..] == b[n..];
    }
  }

  /** Suffixes whose first label is not the one to compare are passed over. */
  lemma {:induction false} PassedOver(t: Trail, j: nat, k: nat, al: Label, rest: seq<Label>)
    requires t.Valid() && j <= k <= |t.labels| && al != [] && forall i :: j <= i < k ==> !CaseEq(al, t.labels[i])
    ensures ScanName(t, j, al, rest) == ScanName(t, k, al, rest)
    decreases k - j
  {
    if j < k {
      assert t.labels[j..][0] == t.labels[j];
      assert Match(al, rest, t.labels[j..]) == (al, t.labels[j..]);
      PassedOver(t, j + 1, k, al, rest);
    }
  }

  /** The label `l` occurs nowhere in `ls`. */
  predicate Foreign(l: Label, ls: seq<Label>) {
    l != [] && forall i :: 0 <= i < |ls| ==> !CaseEq(l, ls[i])
  }

  /** The first repeated label: it stands at `i` and again at `j`, and before `j` there is no other. */
  predicate Repeats(ls: seq<Label>, i: nat, j: nat) {
    i < j < |ls| && CaseEq(ls[i], ls[j]) && Distinct(ls[..j])
  }

  lemma {:induction false} FirstRepeat(ls: seq<Label>) returns (i: nat, j: nat)
    requires !Distinct(ls)
    ensures Repeats(ls, i, j)
    decreases |ls|
  {
    var n := |ls| - 1;
    if Distinct(ls[..n]) {
      forall a, b | 0 <= a < b < n ensures !CaseEq(ls[a], ls[b]) {
        assert !CaseEq(ls[..n][a], ls[..n][b]);
      }
      i, j :| 0 <= i < j < |ls| && CaseEq(ls[i], ls[j]);
    } else {
      i, j := FirstRepeat(ls[..n]);
      assert ls[..n][..j] == ls[..j];
    }
  }

  /** The name pushed first: a foreign label, the labels between the two occurrences, and another foreign label. */
  function Bait(ls: seq<Label>, i: nat, j: nat, s: Label, z: Label): seq<Label>
    requires i < j <= |ls|
  {
    [s] + ls[i + 1..j] + [z]
  }

  /** The name pushed last: the suffix from the first occurrence on, but for its first label. */
  function Victim(ls: seq<Label>, i: nat, s: Label): seq<Label>
    requires i < |ls|
  {
    [s] + ls[i + 1..]
  }

  lemma SameSoFar(ls: seq<Label>, i: nat, j: nat, s: Label, z: Label, k: nat)
    requires i + k < j < |ls|
    ensures Victim(ls, i, s)[k] == Bait(ls, i, j, s, z)[k]
  {
    if k > 0 {
      assert Victim(ls, i, s)[k] == ls[i + k] == Bait(ls, i, j, s, z)[k];
    }
  }

  /** What the comparison with the first name leaves behind: the second occurrence of the label. */
  lemma BaitLeaves(ls: seq<Label>, i: nat, j: nat, s: Label, z: Label)
    requires Repeats(ls, i, j) && AllNonEmpty(ls) && Foreign(s, ls) && Foreign(z, ls)
    ensures Compared(Victim(ls, i, s), Bait(ls, i, j, s, z)) == (ls[j], [z])
  {
    var v, b := Victim(ls, i, s), Bait(ls, i, j, s, z);
    forall k | 0 <= k < j - i ensures CaseEq(v[k], b[k]) {
      SameSoFar(ls, i, j, s, z, k);
    }
    Agreed(v, b, j - i);
    assert v[j - i..] == ls[j..] && b[j - i..] == [z];
    assert !CaseEq(z, ls[j]);
  }

  lemma BaitUnlike(ls: seq<Label>, i: nat, j: nat, s: Label, z: Label, k: nat)
    requires Repeats(ls, i, j) && Foreign(z, ls) && 1 <= k < |Bait(ls, i, j, s, z)|
    ensures !CaseEq(ls[j], Bait(ls, i, j, s, z)[k])
  {
    if i + k < j {
      assert Bait(ls, i, j, s, z)[k] == ls[i + k] && !CaseEq(ls[..j][i], ls[..j][i + k]);
    } else {
      assert !CaseEq(z, ls[j]);
    }
  }

  lemma BaitMisses(t: Trail, ls: seq<Label>, i: nat, j: nat, s: Label, z: Label)
    requires Repeats(ls, i, j) && AllNonEmpty(ls) && Foreign(s, ls) && Foreign(z, ls)
    requires t.Valid() && t.labels == Bait(ls, i, j, s, z)
    ensures ScanName(t, 0, s, ls[i + 1..]) == Miss(ls[j])
  {
    var b, rest := t.labels, ls[i + 1..];
    BaitLeaves(ls, i, j, s, z);
    assert b[0..] == b && Victim(ls, i, s)[1..] == rest;
    assert Match(s, rest, b[0..]) == (ls[j], [z]);
    forall k | 1 <= k < |b| ensures !CaseEq(ls[j], b[k]) {
      BaitUnlike(ls, i, j, s, z, k);
    }
    PassedOver(t, 1, |b|, ls[j], rest);
  }

  /** The stale label is the first one of the suffix, and what follows agrees. */
  lemma StaleAgrees(ls: seq<Label>, i: nat, al: Label)
    requires i < |ls| && AllNonEmpty(ls) && al != [] && CaseEq(al, ls[i])
    ensures Match(al, ls[i + 1..], ls[i..]) == ([], [])
  {
    var a, b := [al] + ls[i + 1..], ls[i..];
    forall k | 0 <= k < |b| ensures CaseEq(a[k], b[k]) {
      assert k > 0 ==> a[k] == ls[i + k];
    }
    Agreed(a, b, |b|);
    assert a[|b|..] == [] && b[|b|..] == [] && a[1..] == ls[i + 1..];
    assert Compared([], []) == ([], []);
  }

  lemma StaleHits(t: Trail, ls: seq<Label>, i: nat, j: nat)
    requires Repeats(ls, i, j) && AllNonEmpty(ls) && t.Valid() && t.labels == ls && t.pos[i] <= MAX_TARGET
    ensures ScanName(t, 0, ls[j], ls[i + 1..]) == Hit(t.pos[i])
  {
    forall k | 0 <= k < i ensures !CaseEq(ls[j], ls[k]) {
      assert !CaseEq(ls[..j][k], ls[..j][i]);
    }
    PassedOver(t, 0, i, ls[j], ls[i + 1..]);
    StaleAgrees(ls, i, ls[j]);
  }

  /** The search takes the last name for the suffix. */
  lemma SearchMisled(t: Trail, u: Trail, ls: seq<Label>, i: nat, j: nat, s: Label, z: Label)
    requires Repeats(ls, i, j) && AllNonEmpty(ls) && Foreign(s, ls) && Foreign(z, ls)
    requires t.Valid() && t.labels == Bait(ls, i, j, s, z) && u.Valid() && u.labels == ls && u.pos[i] <= MAX_TARGET
    ensures Search([t, u], Victim(ls, i, s), 0) == At(0, u.pos[i])
  {
    var v := Victim(ls, i, s);
    BaitMisses(t, ls, i, j, s, z);
    StaleHits(u, ls, i, j);
    assert v[0] == s && v[1..] == ls[i + 1..];
    assert ScanDict([t, u], 1, ls[j], ls[i + 1..]) == Hit(u.pos[i]);
  }

  lemma NoTail(b: seq<Label>, suffix: seq<Label>)
    requires b != [] && Foreign(b[|b| - 1], suffix)
    ensures !TailMatches(b, suffix)
  {
    var n := |b| - 1;
    if |suffix| == |b| && n > 0 {
      assert b[1..][n - 1] == b[n] && suffix[1..][n - 1] == suffix[n];
      assert !CaseEq(b[1..][n - 1], suffix[1..][n - 1]);
    }
  }

  lemma NoHit(t: Trail, target: nat, suffix: seq<Label>)
    requires t.Valid() && t.labels != [] && Foreign(t.labels[|t.labels| - 1], suffix)
    ensures !GoodDictHit([t], target, suffix)
  {
    forall k | 0 <= k < |t.labels| ensures !TailMatches(t.labels[k..], suffix) {
      NoTail(t.labels[k..], suffix);
    }
  }

  /** The name itself shares no suffix with the first one. */
  lemma BaitUnused(t: Trail, ls: seq<Label>)
    requires t.Valid() && t.labels != [] && Foreign(t.labels[|t.labels| - 1], ls) && AllNonEmpty(ls)
    ensures Search([t], ls, 0) == Nowhere
  {
    var r := Search([t], ls, 0);
    SearchSound([t], ls, 0);
    var k := if r.At? then r.k else 0;
    NoHit(t, if r.At? then r.target else 0, ls[k..]);
  }

  lemma {:induction false} NoNames(ls: seq<Label>, k: nat)
    requires k <= |ls|
    ensures Search([], ls, k) == Nowhere
    decreases |ls| - k
  {
    if k < |ls| {
      NoNames(ls, k + 1);
    }
  }

  // ---------------------------------------------------------------- labels that occur nowhere

  /** Four letters for a number. */
  function Code(n: nat): (l: Label)
    requires n < 65536
    ensures |l| == 4 && NoNul(l) && DOT !in l
  {
    var a, b := n / 256, n % 256;
    [97 + a / 16, 97 + a % 16, 97 + b / 16, 97 + b % 16]
  }

  lemma Digits(a: nat, b: nat, k: nat)
    requires k > 0 && a / k == b / k && a % k == b % k
    ensures a == b
  {
    assert a == a / k * k + a % k && b == b / k * k + b % k;
  }

  lemma CodesDiffer(a: nat, b: nat)
    requires a < 65536 && b < 65536 && CaseEq(Code(a), Code(b))
    ensures a == b
  {
    CStrOfText(Code(a));
    CStrOfText(Code(b));
    var s, t := LowerAll(Code(a)), LowerAll(Code(b));
    assert s[0] == t[0] && s[1] == t[1] && s[2] == t[2] && s[3] == t[3];
    Digits(a / 256, b / 256, 16);
    Digits(a % 256, b % 256, 16);
    Digits(a, b, 256);
  }

  function Below(n: nat): (s: set<nat>)
    ensures |s| == n && forall x :: x in s <==> 0 <= x < n
  {
    if n == 0 then {} else Below(n - 1) + {n - 1}
  }

  /** Of more numbers than there are labels, one's letters are none of the labels. */
  lemma {:induction false} Unused(ls: seq<Label>, ns: set<nat>) returns (n: nat)
    requires |ns| > |ls| && forall x :: x in ns ==> x < 65536
    ensures n in ns && n < 65536 && Foreign(Code(n), ls)
    decreases |ls|
  {
    if ls == [] {
      n :| n in ns;
    } else if c :| c in ns && CaseEq(Code(c), ls[0]) {
      n := Unused(ls[1..], ns - {c});
      if CaseEq(Code(n), ls[0]) {
        CodesDiffer(n, c);
      }
      ForeignMore(Code(n), ls);
    } else {
      n := Unused(ls[1..], ns);
      ForeignMore(Code(n), ls);
    }
  }

  lemma ForeignMore(l: Label, ls: seq<Label>)
    requires ls != [] && Foreign(l, ls[1..]) && !CaseEq(l, ls[0])
    ensures Foreign(l, ls)
  {
    forall i | 0 <= i < |ls| ensures !CaseEq(l, ls[i]) {
      assert i > 0 ==> ls[i] == ls[1..][i - 1];
    }
  }

  lemma TwoUnused(ls: seq<Label>) returns (s: Label, z: Label)
    requires |ls| < 65535
    ensures Foreign(s, ls) && Foreign(z, ls) && !CaseEq(s, z) && Plainly(s) && Plainly(z) && |s| == |z| == 4
  {
    var a := Unused(ls, Below(|ls| + 1));
    s := Code(a);
    var b := Unused([s] + ls, Below(|ls| + 2));
    z := Code(b);
    assert ([s] + ls)[0] == s;
    assert forall i :: 0 <= i < |ls| ==> ls[i] == ([s] + ls)[i + 1];
  }

  // ---------------------------------------------------------------- names from labels

  /** A label that can stand in a text. */
  predicate Plainly(l: Label) {
    LabelFits(l) && DOT !in l && NoNul(l)
  }

  predicate AllPlainly(ls: seq<Label>) {
    forall i :: 0 <= i < |ls| ==> Plainly(ls[i])
  }

  lemma {:induction false} OverLabel(s: seq<byte>, p: nat, x: nat, q: nat)
    requires p <= x <= q < |s| && s[q] == DOT && forall i :: x <= i < q ==> s[i] != DOT
    ensures SplitFrom(s, p, x) == [s[p..q]] + SplitFrom(s, q + 1, q + 1)
    decreases q - x
  {
    if x < q {
      OverLabel(s, p, x + 1, q);
    }
  }

  lemma {:induction false} DottedSplits(s: seq<byte>, p: nat, ls: seq<Label>)
    requires p <= |s| && s[p..] == Dotted(ls) && AllPlainly(ls)
    ensures SplitFrom(s, p, p) == ls
    decreases |ls|
  {
    if ls != [] {
      var l, q := ls[0], p + |ls[0]|;
      var rest := Dotted(ls[1..]);
      assert s[p..] == l + [DOT] + rest;
      assert s[p..q] == s[p..][..|l|] == l && s[q] == s[p..][|l|] == DOT && s[q + 1..] == s[p..][|l| + 1..] == rest;
      forall i | p <= i < q ensures s[i] != DOT {
        assert s[i] == l[i - p];
      }
      OverLabel(s, p, p, q);
      DottedSplits(s, q + 1, ls[1..]);
    }
  }

  lemma {:induction false} AllSeen(ls: seq<Label>)
    requires AllNonEmpty(ls)
    ensures NonEmptyPrefix(ls) == ls
  {
    if ls != [] {
      AllSeen(ls[1..]);
    }
  }

  lemma DottedName(ls: seq<Label>)
    requires ls != [] && AllPlainly(ls)
    ensures IsName(Dotted(ls)) && LabelsOf(Dotted(ls)) == ls && Dotted(ls) != [DOT]
  {
    var s := Dotted(ls);
    assert s[0..] == s;
    DottedSplits(s, 0, ls);
    assert |s| >= |ls[0]| + 1;
    AllSeen(ls);
  }

  lemma {:induction false} SplitsPlainly(s: seq<byte>, p: nat, x: nat)
    requires p <= x <= |s| && forall i :: p <= i < x ==> s[i] != DOT
    ensures forall l :: l in SplitFrom(s, p, x) ==> DOT !in l
    decreases |s| - x
  {
    if x < |s| {
      if s[x] == DOT {
        SplitsPlainly(s, x + 1, x + 1);
      } else {
        SplitsPlainly(s, p, x + 1);
      }
    }
  }

  lemma NamePlainly(text: seq<byte>)
    requires IsName(text) && NulFree(LabelsOf(text))
    ensures AllPlainly(LabelsOf(text)) && AllNonEmpty(LabelsOf(text))
  {
    NameLabels(text);
    SplitsPlainly(text, 0, 0);
    var ls := LabelsOf(text);
    forall i | 0 <= i < |ls| ensures Plainly(ls[i]) {
      assert ls[i] in Segments(text);
    }
  }

  lemma {:induction false} WireSize(ls: seq<Label>)
    requires AllFit(ls)
    ensures |Wire(ls)| >= 2 * |ls|
  {
    if ls != [] {
      WireSize(ls[1..]);
    }
  }

  // ---------------------------------------------------------------- questions

  function Question(text: seq<byte>): Entry {
    Entry(QD, text, T_A, 1, 0, Raw([]))
  }

  /** That question is pushed, and taken. */
  ghost predicate Takes(s: State, size: nat, text: seq<byte>, s': State) {
    HEADER <= |s.d| && forall e :: e == Question(text) ==> Push(s, size, e) == (Done, s')
  }

  /** A packet of `n` questions, whose dictionary has the entries `us`. */
  predicate Asked(s: State, n: nat, us: seq<nat>) {
    HEADER <= |s.d| && Holds(s.dict, us)
    && Count(s.d, 0) == n && Count(s.d, 1) == 0 && Count(s.d, 2) == 0 && Count(s.d, 3) == 0
  }

  lemma QuestionCounted(s: State, n: nat, us: seq<nat>, b: Body, s': State)
    requires Asked(s, n, us) && n < 65535 && s.d <= b.d && s' == Entered(s.memos, b, 0)
    ensures SameBody(s'.d, b.d) && |s'.d| == |b.d| && s'.dict == b.dict
    ensures Count(s'.d, 0) == n + 1 && Count(s'.d, 1) == 0 && Count(s'.d, 2) == 0 && Count(s'.d, 3) == 0
  {
    KeepsHeader(s.d, b.d);
    CountsUp(b.d, 0, s'.d);
  }

  /** A question with its owner name written. */
  lemma PushesQuestion(s: State, size: nat, e: Entry, n: Body, b: Body)
    requires HEADER <= |s.d| && e.section == QD && PushName(Body(s.d, s.dict), size, e.name) == Some(n)
    requires b == Body(n.d + Fixed(e.typ, e.cls), n.dict) && |b.d| <= size && s.d <= b.d && Verdict(s.d, QD) == Done
    ensures Push(s, size, e) == (Done, Entered(s.memos, b, 0))
  {
    assert Written(s, size, e) == Some(b);
    SameVerdict(s.d, b.d, QD);
  }

  lemma NoLaterSections(d: seq<byte>)
    requires HEADER <= |d| && Count(d, 1) == 0 && Count(d, 2) == 0 && Count(d, 3) == 0
    ensures Verdict(d, QD) == Done
  {
    assert Later(d, 2) == 0 && Later(d, 1) == 0;
  }

  /** A question is written as its name and four octets. */
  lemma QuestionTaken(s: State, size: nat, n: nat, us: seq<nat>, text: seq<byte>, w: seq<byte>) returns (s': State)
    requires Asked(s, n, us) && n < 65535 && |s.d| + |w| + 4 <= size
    requires w == Compressed(NamesOf(s.d, s.dict), text, size - |s.d|)
    ensures Takes(s, size, text, s') && SameBody(s'.d, s.d + w) && |s'.d| == |s.d| + |w| + 4
    ensures s'.dict == DictAdded(s.d + w, s.dict, |s.d|)
    ensures Count(s'.d, 0) == n + 1 && Count(s'.d, 1) == 0 && Count(s'.d, 2) == 0 && Count(s'.d, 3) == 0
  {
    var m := Body(s.d + w, DictAdded(s.d + w, s.dict, |s.d|));
    var b := Body(m.d + Fixed(T_A, 1), m.dict);
    NoLaterSections(s.d);
    PushesQuestion(s, size, Question(text), m, b);
    s' := Entered(s.memos, b, 0);
    QuestionCounted(s, n, us, b, s');
  }

  lemma StandsBehind(d: seq<byte>, w: seq<byte>, d': seq<byte>)
    requires SameBody(d', d + w) && HEADER <= |d|
    ensures SameBody(d', d) && Stands(d', |d|, w)
  {
    forall i | 12 <= i < |d| ensures d'[i] == d[i] {
      assert (d + w)[i] == d[i];
    }
    forall i | 0 <= i < |w| ensures d'[|d| + i] == w[i] {
      assert (d + w)[|d| + i] == w[i];
    }
  }

  lemma WrittenInFull(names: seq<Trail>, text: seq<byte>, lim: nat, w: seq<byte>)
    requires AllValid(names) && IsName(text) && Search(names, LabelsOf(text), 0) == Nowhere
             && w == Wire(LabelsOf(text)) + [0]
    ensures Compressed(names, text, lim) == w && Replaced(names, text, lim) == None
  {
    NameLabels(text);
  }

  lemma LetIn(names: seq<Trail>, us: seq<nat>, text: seq<byte>, lim: nat, d: seq<byte>, dict: seq<nat>, w: seq<byte>)
    requires Holds(dict, us) && |us| < DICT_SIZE && AllValid(names) && IsName(text) && d != []
    requires Compressed(names, text, lim) == w && Replaced(names, text, lim) == None
    ensures Holds(DictAdded(d + w, dict, |d|), us + [|d|])
  {
    assert Stands(d + w, |d|, w);
    InlineOfWritten(names, text, lim, d + w, |d|);
    HoldsMore(d + w, dict, us, |d|);
  }

  /** A name that shares nothing with the dictionary stands in full, and is let in. */
  lemma StandsInFull(s: State, size: nat, n: nat, us: seq<nat>, text: seq<byte>, ls: seq<Label>) returns (s': State)
    requires Asked(s, n, us) && n < 65535 && |us| < DICT_SIZE && IsName(text) && LabelsOf(text) == ls
    requires Search(NamesOf(s.d, s.dict), ls, 0) == Nowhere && |s.d| + |Wire(ls)| + 5 <= size
    ensures Takes(s, size, text, s') && Asked(s', n + 1, us + [|s.d|]) && SameBody(s'.d, s.d)
    ensures |s'.d| == |s.d| + |Wire(ls)| + 5 && Stands(s'.d, |s.d|, Wire(ls) + [0])
  {
    var names, w, lim := NamesOf(s.d, s.dict), Wire(ls) + [0], size - |s.d|;
    WrittenInFull(names, text, lim, w);
    s' := QuestionTaken(s, size, n, us, text, w);
    StandsBehind(s.d, w, s'.d);
    LetIn(names, us, text, lim, s.d, s.dict, w);
  }

  lemma StandsStill(d: seq<byte>, d': seq<byte>, p: nat, w: seq<byte>)
    requires Stands(d, p, w) && SameBody(d', d) && 12 <= p
    ensures Stands(d', p, w)
  {
  }

  /** Two trails from the same offset agree as far as both go. */
  lemma {:induction false} TrailsAgree(t: Trail, u: Trail, d: seq<byte>, m: nat)
    requires Follows(t, d) && Follows(u, d) && t.pos[0] == u.pos[0] && m <= |t.labels|
    ensures m <= |u.labels| && t.pos[m] == u.pos[m] && t.labels[..m] == u.labels[..m]
    decreases m
  {
    if m > 0 {
      TrailsAgree(t, u, d, m - 1);
      assert LExpand(d, t.pos[m - 1], 0) == (t.labels[m - 1], t.pos[m]);
      assert LExpand(d, u.pos[m - 1], 0).0 != [];
      assert t.labels[..m] == t.labels[..m - 1] + [t.labels[m - 1]];
    }
  }

  lemma TrailIs(t: Trail, u: Trail, d: seq<byte>)
    requires Follows(t, d) && Follows(u, d) && t.pos[0] == u.pos[0]
    ensures t == u
  {
    TrailsAgree(t, u, d, |t.labels|);
    TrailsAgree(u, t, d, |u.labels|);
    assert t.labels == t.labels[..|t.labels|] && u.labels == u.labels[..|u.labels|];
    forall m | 0 <= m < |t.pos| ensures t.pos[m] == u.pos[m] {
      TrailsAgree(t, u, d, m);
    }
  }

  /** The trail of a name that stands in full. */
  lemma FullTrailIs(d: seq<byte>, p: nat, ls: seq<Label>)
    requires 12 <= p && AllFit(ls) && Stands(d, p, Wire(ls) + [0])
    ensures Readable(d, p) && TrailAt(d, p) == FullTrail(p, ls)
  {
    StandsParts(d, p, Wire(ls), [0]);
    assert d[p + |Wire(ls)| + 0] == [0][0];
    PlainReads(Packet(d), p, ls);
    TrailFollows(d, p);
    StandsFollows(d, p, ls);
    TrailIs(TrailAt(d, p), FullTrail(p, ls), d);
  }

  lemma OneName(d: seq<byte>, dict: seq<nat>, p: nat, t: Trail)
    requires Holds(dict, [p]) && Readable(d, p) && t == TrailAt(d, p)
    ensures NamesOf(d, dict) == [t]
  {
    assert dict[..1] == [p] && dict[0] == dict[..1][0];
    assert ReadableDict(d, dict);
  }

  lemma OneTrail(s: State, n: nat, p: nat, ls: seq<Label>)
    requires Asked(s, n, [p]) && 12 <= p && AllFit(ls) && Stands(s.d, p, Wire(ls) + [0])
    ensures NamesOf(s.d, s.dict) == [FullTrail(p, ls)]
  {
    FullTrailIs(s.d, p, ls);
    OneName(s.d, s.dict, p, FullTrail(p, ls));
  }

  lemma TwoTrails(s: State, n: nat, p: nat, a: seq<Label>, q: nat, b: seq<Label>)
    requires Asked(s, n, [p, q]) && 12 <= p && 12 <= q && AllFit(a) && AllFit(b)
    requires Stands(s.d, p, Wire(a) + [0]) && Stands(s.d, q, Wire(b) + [0])
    ensures NamesOf(s.d, s.dict) == [FullTrail(p, a), FullTrail(q, b)]
  {
    FullTrailIs(s.d, p, a);
    FullTrailIs(s.d, q, b);
    assert s.dict[..2] == [p, q] && s.dict[0] == s.dict[..2][0] && s.dict[1] == s.dict[..2][1];
    assert ReadableDict(s.d, s.dict);
  }

  // ---------------------------------------------------------------- the three pushes

  /** A suffix of a name that stands in full reads as that suffix. */
  lemma SuffixReads(d: seq<byte>, p: nat, ls: seq<Label>, i: nat, t: nat)
    requires 12 <= p && i <= |ls| && AllFit(ls) && Stands(d, p, Wire(ls) + [0]) && t == p + |Wire(ls[..i])|
    ensures t < |d| && ReadsOk(View(d, 12, 0), t) && LabelsAt(View(d, 12, 0), t) == ls[i..]
  {
    WireAppend(ls[..i], ls[i..]);
    assert ls[..i] + ls[i..] == ls;
    assert Wire(ls) + [0] == Wire(ls[..i]) + (Wire(ls[i..]) + [0]);
    StandsParts(d, p, Wire(ls[..i]), Wire(ls[i..]) + [0]);
    PlainReads(View(d, 12, 0), t, ls[i..]);
    PrefixedSeq(ls[i..], Name(Nil, true));
    assert ls[i..] + [] == ls[i..];
  }

  /** A pointer behind the packet reads as what it points to. */
  lemma PointsTo(d: seq<byte>, t: nat, d': seq<byte>, ls: seq<Label>)
    requires 12 <= |d| && t < |d| && t <= MAX_TARGET && ReadsOk(View(d, 12, 0), t) && LabelsAt(View(d, 12, 0), t) == ls
    requires SameBody(d', d + PointerTo(t))
    ensures ReadsOk(View(d', 12, MAX_POINTERS), |d|) && LabelsAt(View(d', 12, MAX_POINTERS), |d|) == ls
  {
    var w, v := d + PointerTo(t), View(d, 12, 0);
    assert Wire([]) + PointerTo(t) == PointerTo(t);
    AppendedExtends(w, d, PointerTo(t), 0, 1);
    PointerReads(View(w, 12, 1), v, [], t);
    GrowKeepsName(w, 1, |d|, d', MAX_POINTERS);
  }

  /** The three questions are pushed to a packet, and taken. */
  ghost predicate Taken(s0: State, size: nat, u: seq<byte>, text: seq<byte>, v: seq<byte>, s1: State, s2: State,
                        s3: State) {
    Takes(s0, size, u, s1) && Takes(s1, size, text, s2) && Takes(s2, size, v, s3)
  }

  /** The name in front of it is one that does no harm, and the name behind it can be any. */
  predicate Proper(u: seq<byte>, v: seq<byte>) {
    IsName(u) && Clean(LabelsOf(u)) && IsName(v) && NulFree(LabelsOf(v))
  }

  /** Between a name without repeated labels and any other one, it does not keep that one from being read back. */
  ghost predicate Harmless(s0: State, size: nat, text: seq<byte>) {
    forall u: seq<byte>, v: seq<byte>, s1: State, s2: State,
      s3: State {:trigger Taken(s0, size, u, text, v, s1, s2, s3)} ::
      Proper(u, v) && Taken(s0, size, u, text, v, s1, s2, s3) ==> ReadsBack(s3.d, MAX_POINTERS, |s2.d|, LabelsOf(v))
  }

  // ---------------------------------------------------------------- a repeated label does harm

  /** A packet without records, and with an empty dictionary. */
  predicate Empty(s: State) {
    Asked(s, 0, []) && |s.d| == 12 && NamesOf(s.d, s.dict) == []
  }

  lemma EmptyIs()
    ensures Empty(EMPTY)
  {
    EmptyHolds();
    NamesShow(EMPTY.d, EMPTY.dict, [], []);
  }

  lemma BaitFits(ls: seq<Label>, i: nat, j: nat, s: Label, z: Label)
    requires i < j < |ls| && AllPlainly(ls) && Plainly(s) && Plainly(z) && |s| == |z| == 4
    ensures AllPlainly(Bait(ls, i, j, s, z)) && |Wire(Bait(ls, i, j, s, z))| == 10 + |Wire(ls[i + 1..j])|
  {
    WireAppend([s] + ls[i + 1..j], [z]);
    WireAppend([s], ls[i + 1..j]);
    assert Wire([s]) == [4] + s + Wire([]) && Wire([z]) == [4] + z + Wire([]);
    forall k | 0 <= k < |Bait(ls, i, j, s, z)| ensures Plainly(Bait(ls, i, j, s, z)[k]) {
      assert 0 < k <= j - i - 1 ==> Bait(ls, i, j, s, z)[k] == ls[i + k];
    }
  }

  lemma BaitClean(ls: seq<Label>, i: nat, j: nat, s: Label, z: Label)
    requires Repeats(ls, i, j) && AllPlainly(ls) && Plainly(s) && Plainly(z)
    requires Foreign(s, ls) && Foreign(z, ls) && !CaseEq(s, z)
    ensures Clean(Bait(ls, i, j, s, z))
  {
    var b := Bait(ls, i, j, s, z);
    forall x | 0 <= x < |b| ensures NoNul(b[x]) {
      assert 0 < x < |b| - 1 ==> b[x] == ls[i + x];
    }
    forall x, y | 0 <= x < y < |b| ensures !CaseEq(b[x], b[y]) {
      assert 0 < x ==> b[x] == ls[i + x] == ls[..j][i + x];
      assert y < |b| - 1 ==> b[y] == ls[i + y] == ls[..j][i + y];
    }
  }

  lemma VictimFits(ls: seq<Label>, i: nat, s: Label)
    requires i < |ls| && AllPlainly(ls) && Plainly(s) && |s| == 4
    ensures AllPlainly(Victim(ls, i, s)) && |Wire(Victim(ls, i, s))| == 5 + |Wire(ls[i + 1..])|
  {
    WireAppend([s], ls[i + 1..]);
    assert Wire([s]) == [4] + s + Wire([]);
    forall k | 0 <= k < |Victim(ls, i, s)| ensures Plainly(Victim(ls, i, s)[k]) {
      assert 0 < k ==> Victim(ls, i, s)[k] == ls[i + k];
    }
  }

  /** The bait is taken, and then the name. */
  lemma BothStand(s0: State, size: nat, text: seq<byte>, ls: seq<Label>, b: seq<Label>, z: Label)
    returns (s1: State, s2: State)
    requires IsName(text) && LabelsOf(text) == ls && AllPlainly(ls) && AllPlainly(b) && b != [] && b[|b| - 1] == z
    requires Empty(s0) && Foreign(z, ls) && 22 + |Wire(b)| + |Wire(ls)| <= size
    ensures Takes(s0, size, Dotted(b), s1) && Takes(s1, size, text, s2) && |s1.d| == 17 + |Wire(b)|
            && |s2.d| == |s1.d| + |Wire(ls)| + 5
    ensures Asked(s2, 2, [12, |s1.d|]) && NamesOf(s2.d, s2.dict) == [FullTrail(12, b), FullTrail(|s1.d|, ls)]
    ensures Stands(s2.d, |s1.d|, Wire(ls) + [0])
  {
    DottedName(b);
    NoNames(b, 0);
    s1 := StandsInFull(s0, size, 0, [], Dotted(b), b);
    assert [] + [12] == [12];
    OneTrail(s1, 1, 12, b);
    BaitUnused(FullTrail(12, b), ls);
    s2 := StandsInFull(s1, size, 1, [12], text, ls);
    assert [12] + [|s1.d|] == [12, |s1.d|];
    StandsStill(s1.d, s2.d, 12, Wire(b) + [0]);
    TwoTrails(s2, 2, 12, b, |s1.d|, ls);
  }

  /** The last name becomes a pointer into the name before it. */
  lemma BecomesPointer(s: State, size: nat, n: nat, us: seq<nat>, names: seq<Trail>, text: seq<byte>, t: nat)
    returns (s': State)
    requires Asked(s, n, us) && n < 65535 && NamesOf(s.d, s.dict) == names && AllValid(names) && IsName(text)
    requires Search(names, LabelsOf(text), 0) == At(0, t) && |s.d| + |Wire(LabelsOf(text))| + 5 <= size
    ensures Takes(s, size, text, s') && SameBody(s'.d, s.d + PointerTo(t))
  {
    var v := LabelsOf(text);
    NameLabels(text);
    WireSize(v);
    assert Wire(v[..0]) == [] && [] + PointerTo(t) == PointerTo(t);
    s' := QuestionTaken(s, size, n, us, text, PointerTo(t));
  }

  /** The name at `p` reads `ls`. */
  predicate ReadsAs(d: seq<byte>, p: nat, ls: seq<Label>) {
    ReadsOk(View(d, 12, MAX_POINTERS), p) && LabelsAt(View(d, 12, MAX_POINTERS), p) == ls
  }

  /** And so it is printed, if the text and its NUL fit the buffer. */
  lemma PrintsAs(d: seq<byte>, p: nat, ls: seq<Label>)
    requires ReadsAs(d, p, ls) && ls != []
    ensures HostText(d, p) == if |Dotted(ls)| < HOST_SIZE then Some(Dotted(ls)) else None
  {
    WalkRelax(Packet(d), p, |d|, 0, 0, |d|);
    EmitIsDotted([], NameAt(Packet(d), p).labels);
    assert [] + Dotted(ls) == Dotted(ls);
  }

  lemma ReadsAnother(d: seq<byte>, p: nat, ls: seq<Label>, i: nat, s: Label)
    requires i < |ls| && Foreign(s, ls) && ReadsAs(d, p, ls[i..])
    ensures !ReadsBack(d, MAX_POINTERS, p, Victim(ls, i, s))
  {
    assert ls[i..][0] == ls[i] && Victim(ls, i, s)[0] == s;
    assert !CaseEq(ls[i..][0], Victim(ls, i, s)[0]);
  }

  /** What the two other names are made of. */
  predicate Trap(ls: seq<Label>, i: nat, j: nat, s: Label, z: Label) {
    Repeats(ls, i, j) && AllPlainly(ls) && AllNonEmpty(ls) && Foreign(s, ls) && Foreign(z, ls) && !CaseEq(s, z)
    && Plainly(s) && Plainly(z) && |s| == |z| == 4
  }

  lemma TrapSet(text: seq<byte>) returns (i: nat, j: nat, s: Label, z: Label)
    requires IsName(text) && NulFree(LabelsOf(text)) && !Distinct(LabelsOf(text)) && |Wire(LabelsOf(text))| < 65535
    ensures Trap(LabelsOf(text), i, j, s, z)
  {
    NamePlainly(text);
    WireSize(LabelsOf(text));
    i, j := FirstRepeat(LabelsOf(text));
    s, z := TwoUnused(LabelsOf(text));
  }

  lemma PartsFit(ls: seq<Label>, i: nat, j: nat)
    requires i < j < |ls|
    ensures |Wire(ls[i + 1..j])| + |Wire(ls[..i])| <= |Wire(ls)| && |Wire(ls[i + 1..])| <= |Wire(ls)|
  {
    WireAppend(ls[..i], [ls[i]]);
    assert ls[..i] + [ls[i]] == ls[..i + 1];
    WireAppend(ls[..i + 1], ls[i + 1..]);
    assert ls[..i + 1] + ls[i + 1..] == ls;
    WireAppend(ls[i + 1..j], ls[j..]);
    assert ls[i + 1..j] + ls[j..] == ls[i + 1..];
  }

  lemma TrapFits(ls: seq<Label>, i: nat, j: nat, s: Label, z: Label, b: seq<Label>, v: seq<Label>)
    requires Trap(ls, i, j, s, z) && b == Bait(ls, i, j, s, z) && v == Victim(ls, i, s)
    ensures AllPlainly(b) && Clean(b) && b[|b| - 1] == z && AllPlainly(v)
    ensures |Wire(b)| + |Wire(ls[..i])| <= 10 + |Wire(ls)| && |Wire(b)| <= 10 + |Wire(ls)|
            && |Wire(v)| <= 5 + |Wire(ls)|
  {
    BaitFits(ls, i, j, s, z);
    BaitClean(ls, i, j, s, z);
    VictimFits(ls, i, s);
    PartsFit(ls, i, j);
  }

  /** The three pushes with labels in hand. */
  lemma TrapSprings(s0: State, size: nat, text: seq<byte>, ls: seq<Label>, i: nat, j: nat, s: Label, z: Label,
                    b: seq<Label>, v: seq<Label>)
      returns (s1: State, s2: State, s3: State)
    requires Empty(s0) && IsName(text) && LabelsOf(text) == ls && Trap(ls, i, j, s, z)
    requires b == Bait(ls, i, j, s, z) && v == Victim(ls, i, s)
    requires |Wire(ls)| + 27 <= MAX_TARGET && 3 * |Wire(ls)| + 50 <= size
    ensures Taken(s0, size, Dotted(b), text, Dotted(v), s1, s2, s3) && ReadsAs(s3.d, |s2.d|, ls[i..])
  {
    TrapFits(ls, i, j, s, z, b, v);
    s1, s2 := BothStand(s0, size, text, ls, b, z);
    var p := |s1.d|;
    var t := p + |Wire(ls[..i])|;
    FullTrailPos(p, ls, i);
    SearchMisled(FullTrail(12, b), FullTrail(p, ls), ls, i, j, s, z);
    DottedName(v);
    s3 := BecomesPointer(s2, size, 2, [12, p], [FullTrail(12, b), FullTrail(p, ls)], Dotted(v), t);
    SuffixReads(s2.d, p, ls, i, t);
    PointsTo(s2.d, t, s3.d, ls[i..]);
  }

  /**
   A name with a repeated label, pushed between two others, misleads the second one: it reads as a suffix of
   that name, whose first label occurs nowhere in what was pushed.
   */
  lemma {:induction false} RepeatMisleads(s0: State, size: nat, text: seq<byte>)
      returns (i: nat, u: seq<byte>, v: seq<byte>, s1: State, s2: State, s3: State)
    requires Empty(s0) && IsName(text) && NulFree(LabelsOf(text)) && !Distinct(LabelsOf(text))
    requires |Wire(LabelsOf(text))| + 27 <= MAX_TARGET && 3 * |Wire(LabelsOf(text))| + 50 <= size
    ensures Proper(u, v) && Taken(s0, size, u, text, v, s1, s2, s3)
    ensures i < |LabelsOf(text)| && ReadsAs(s3.d, |s2.d|, LabelsOf(text)[i..])
            && Foreign(Head(LabelsOf(v)), LabelsOf(text))
    ensures var got := Dotted(LabelsOf(text)[i..]);
            |got| < HOST_SIZE ==> HostText(s3.d, |s2.d|) == Some(got)
    ensures !ReadsBack(s3.d, MAX_POINTERS, |s2.d|, LabelsOf(v))
  {
    var ls, j, s, z := LabelsOf(text), 0, [], [];
    i, j, s, z := TrapSet(text);
    var b, w := Bait(ls, i, j, s, z), Victim(ls, i, s);
    TrapFits(ls, i, j, s, z, b, w);
    u, v := Dotted(b), Dotted(w);
    DottedName(b);
    DottedName(w);
    s1, s2, s3 := TrapSprings(s0, size, text, ls, i, j, s, z, b, w);
    PrintsAs(s3.d, |s2.d|, ls[i..]);
    ReadsAnother(s3.d, |s2.d|, ls, i, s);
  }

  // ---------------------------------------------------------------- and no other name does

  lemma EmptyIsClean()
    ensures Laid(EMPTY, [HEADER]) && CleanDict(EMPTY.d, EMPTY.dict, 0)
  {
    EmptyIsLaid();
    assert Used(EMPTY.dict) == [];
  }

  /** A question with a clean name keeps the packet clean. */
  lemma CleanQuestion(s: State, size: nat, offs: seq<nat>, cap: nat, text: seq<byte>, s': State)
    requires Laid(s, offs) && CleanDict(s.d, s.dict, cap) && cap + 2 <= MAX_POINTERS && size <= 65535
    requires IsName(text) && Clean(LabelsOf(text)) && Takes(s, size, text, s')
    ensures Laid(s', offs + [|s'.d|]) && CleanDict(s'.d, s'.dict, cap + 2)
  {
    var b := Written(s, size, Question(text));
    assert Push(s, size, Question(text)) == (Done, s');
    PushKeepsLaid(s, size, Question(text), offs, s');
    TakenReads(s, size, Question(text), cap, offs, b.value, s');
  }

  lemma QuestionParts(s: State, size: nat, text: seq<byte>, s': State) returns (n: Body, b: Body)
    requires Takes(s, size, text, s')
    ensures PushName(Body(s.d, s.dict), size, text) == Some(n) && b == Body(n.d + Fixed(T_A, 1), n.dict)
    ensures |s.d| <= |n.d| && s' == Entered(s.memos, b, 0) && Written(s, size, Question(text)) == Some(b)
  {
    assert Push(s, size, Question(text)) == (Done, s');
    n := PushName(Body(s.d, s.dict), size, text).value;
    b := Written(s, size, Question(text)).value;
  }

  /** Any name that is written to a clean packet reads back. */
  lemma AnyQuestion(s: State, size: nat, offs: seq<nat>, cap: nat, text: seq<byte>, s': State)
    requires Laid(s, offs) && CleanDict(s.d, s.dict, cap) && cap < MAX_POINTERS && size <= 65535
    requires IsName(text) && NulFree(LabelsOf(text)) && Takes(s, size, text, s')
    ensures ReadsBack(s'.d, MAX_POINTERS, |s.d|, LabelsOf(text))
  {
    var n, b := QuestionParts(s, size, text, s');
    var w := Compressed(NamesOf(s.d, s.dict), text, size - |s.d|);
    SoundDictReadable(s.d, s.dict);
    AppendedSameBody(s.d, w);
    CompressedReads(s.d, s.dict, cap, text, size - |s.d|, n.d);
    PushKeepsLaid(s, size, Question(text), offs, s');
    QuestionGrows(s, size, offs, text, n, b, s');
    NamedGrow(n.d, cap + 1, s'.d, MAX_POINTERS, |s.d|, LabelsOf(text));
  }

  lemma QuestionGrows(s: State, size: nat, offs: seq<nat>, text: seq<byte>, n: Body, b: Body, s': State)
    requires Laid(s, offs) && size <= 65535 && IsName(text) && Written(s, size, Question(text)) == Some(b)
    requires PushName(Body(s.d, s.dict), size, text) == Some(n) && b == Body(n.d + Fixed(T_A, 1), n.dict)
    requires HEADER <= |b.d| && s' == Entered(s.memos, b, 0)
    ensures SameBody(s'.d, n.d)
  {
    PushRecordSound(Body(s.d, s.dict), size, true, text, T_A, 1, 0, Raw([]));
    CountBound(s, offs, b, 0);
    CountsUp(b.d, 0, s'.d);
  }

  lemma DistinctHarmless(s0: State, size: nat, u: seq<byte>, text: seq<byte>, v: seq<byte>, s1: State, s2: State,
                         s3: State)
    requires Laid(s0, [HEADER]) && CleanDict(s0.d, s0.dict, 0) && IsName(text) && Clean(LabelsOf(text)) && size <= 65535
    requires Proper(u, v) && Taken(s0, size, u, text, v, s1, s2, s3)
    ensures ReadsBack(s3.d, MAX_POINTERS, |s2.d|, LabelsOf(v))
  {
    CleanQuestion(s0, size, [HEADER], 0, u, s1);
    var offs := [HEADER] + [|s1.d|];
    CleanQuestion(s1, size, offs, 2, text, s2);
    AnyQuestion(s2, size, offs + [|s2.d|], 4, v, s3);
  }

  lemma HarmlessFrom(s0: State, size: nat, text: seq<byte>)
    requires Empty(s0) && Laid(s0, [HEADER]) && CleanDict(s0.d, s0.dict, 0) && IsName(text) && NulFree(LabelsOf(text))
    requires |Wire(LabelsOf(text))| + 27 <= MAX_TARGET && 3 * |Wire(LabelsOf(text))| + 50 <= size <= 65535
    ensures Harmless(s0, size, text) <==> Distinct(LabelsOf(text))
  {
    if Distinct(LabelsOf(text)) {
      forall u: seq<byte>, v: seq<byte>, s1: State, s2: State, s3: State
        | Proper(u, v) && Taken(s0, size, u, text, v, s1, s2, s3)
        ensures ReadsBack(s3.d, MAX_POINTERS, |s2.d|, LabelsOf(v))
      {
        DistinctHarmless(s0, size, u, text, v, s1, s2, s3);
      }
    } else {
      var i, u, v, s1, s2, s3 := RepeatMisleads(s0, size, text);
    }
  }

  /** A name without NUL that fits does no harm exactly when no label occurs twice in it, up to case. */
  lemma {:induction false} HarmlessExactly(size: nat, text: seq<byte>)
    requires IsName(text) && NulFree(LabelsOf(text))
    requires |Wire(LabelsOf(text))| + 27 <= MAX_TARGET && 3 * |Wire(LabelsOf(text))| + 50 <= size <= 65535
    ensures Harmless(EMPTY, size, text) <==> Distinct(LabelsOf(text))
  {
    EmptyIs();
    EmptyIsClean();
    HarmlessFrom(EMPTY, size, text);
  }

  // ---------------------------------------------------------------- two questions that are enough

  /** a.b.c.c and a.c. */
  const REPEATING: seq<byte> := [97, 46, 98, 46, 99, 46, 99]
  const SHORTER: seq<byte> := [97, 46, 99]

  lemma Differ(a: byte, b: byte)
    requires 97 <= a <= 122 && 97 <= b <= 122
    ensures CaseEq([a], [b]) <==> a == b
  {
    CStrOfText([a]);
    CStrOfText([b]);
    assert LowerAll([a])[0] == a && LowerAll([b])[0] == b;
  }

  /**
   With the name a.b.c.c in the dictionary, a.c is taken for its suffix c.c: the comparison with
   a.b.c.c leaves c behind as the label to compare, and c, then c, match.
   */
  lemma StaleLabelMisleads(pos: seq<nat>)
    requires |pos| == 5 && pos[2] <= MAX_TARGET
    ensures var t := Trail(pos, [LA, LB, LC, LC]);
            Search([t], [LA, LC], 0) == At(0, pos[2]) && !SameNames(t.labels[2..], [LA, LC])
  {
    var t := Trail(pos, [LA, LB, LC, LC]);
    Differ(97, 98);
    Differ(99, 98);
    Differ(99, 97);
    Differ(97, 99);
    var m := t.labels;
    assert m[0..] == [LA, LB, LC, LC] && m[1..] == [LB, LC, LC] && m[2..] == [LC, LC] && m[3..] == [LC];
    assert [LA, LB, LC, LC][1..] == [LB, LC, LC] && [LC, LC][1..] == [LC] && [LC][1..] == [];
    assert Match(LC, [], [LC]) == ([], []);
    assert Match(LC, [LC], [LC, LC]) == ([], []);
    assert Match(LC, [LC], [LB, LC, LC]) == (LC, [LB, LC, LC]);
    assert Match(LA, [LC], [LA, LB, LC, LC]) == Match(LC, [], [LB, LC, LC]) == (LC, [LB, LC, LC]);
    assert ScanName(t, 2, LC, [LC]) == Hit(pos[2]);
    assert ScanName(t, 1, LC, [LC]) == Hit(pos[2]);
    assert ScanName(t, 0, LA, [LC]) == Hit(pos[2]);
    assert [LA, LC][1..] == [LC];
    assert !CaseEq(m[2..][0], [LA, LC][0]);
  }

  /** One label of one octet, and a dot. */
  lemma SplitDot(s: seq<byte>, p: nat)
    requires p + 1 < |s| && s[p] != DOT && s[p + 1] == DOT
    ensures SplitFrom(s, p, p) == [[s[p]]] + SplitFrom(s, p + 2, p + 2)
  {
    assert s[p..p + 1] == [s[p]];
    assert SplitFrom(s, p, p) == SplitFrom(s, p, p + 1);
  }

  lemma SplitEnd(s: seq<byte>, p: nat)
    requires p + 1 == |s| && s[p] != DOT
    ensures SplitFrom(s, p, p) == [[s[p]]]
  {
    assert s[p..p + 1] == [s[p]];
    assert SplitFrom(s, p, p) == SplitFrom(s, p, p + 1);
  }

  lemma WireOne(c: byte, ls: seq<Label>)
    ensures |Wire([[c]] + ls)| == 2 + |Wire(ls)|
  {
    assert ([[c]] + ls)[0] == [c] && ([[c]] + ls)[1..] == ls;
  }

  lemma RepeatingName(s: seq<byte>)
    requires s == [97, 46, 98, 46, 99, 46, 99]
    ensures IsName(s) && LabelsOf(s) == [LA, LB, LC, LC]
  {
    SplitDot(s, 0);
    SplitDot(s, 2);
    SplitDot(s, 4);
    SplitEnd(s, 6);
    assert [LC] + [LC] == [LC, LC] && [LB] + [LC, LC] == [LB, LC, LC] && [LA] + [LB, LC, LC] == [LA, LB, LC, LC];
    AllSeen([LA, LB, LC, LC]);
  }

  lemma ShorterName(s: seq<byte>)
    requires s == [97, 46, 99]
    ensures IsName(s) && LabelsOf(s) == [LA, LC]
  {
    SplitDot(s, 0);
    SplitEnd(s, 2);
    assert [LA] + [LC] == [LA, LC];
    AllSeen([LA, LC]);
  }

  lemma Lengths()
    ensures |Wire([LA, LB, LC, LC])| == 8 && |Wire([LA, LB])| == 4 && |Wire([LA, LC])| == 4
  {
    var none: seq<Label> := [];
    WireOne(99, none);
    WireOne(98, none);
    assert [LC] + none == [LC] && [LB] + none == [LB];
    WireOne(99, [LC]);
    WireOne(98, [LC, LC]);
    WireOne(97, [LB, LC, LC]);
    WireOne(97, [LB]);
    WireOne(97, [LC]);
    assert [LC] + [LC] == [LC, LC] && [LB] + [LC, LC] == [LB, LC, LC] && [LA] + [LB, LC, LC] == [LA, LB, LC, LC];
    assert [LA] + [LB] == [LA, LB] && [LA] + [LC] == [LA, LC];
  }

  lemma TwoMislead(s0: State, size: nat, name: seq<byte>, short: seq<byte>, ls: seq<Label>)
    returns (s1: State, s2: State)
    requires Empty(s0) && 64 <= size && IsName(name) && LabelsOf(name) == ls == [LA, LB, LC, LC]
    requires IsName(short) && LabelsOf(short) == [LA, LC]
    ensures Takes(s0, size, name, s1) && Takes(s1, size, short, s2) && |s1.d| == 25 && ReadsAs(s2.d, 25, [LC, LC])
  {
    Lengths();
    NoNames(ls, 0);
    s1 := StandsInFull(s0, size, 0, [], name, ls);
    assert [] + [12] == [12];
    OneTrail(s1, 1, 12, ls);
    assert ls[..2] == [LA, LB] && ls[2..] == [LC, LC];
    FullTrailPos(12, ls, 2);
    StaleLabelMisleads(FullTrail(12, ls).pos);
    s2 := BecomesPointer(s1, size, 1, [12], [FullTrail(12, ls)], short, 16);
    SuffixReads(s1.d, 12, ls, 2, 16);
    PointsTo(s1.d, 16, s2.d, ls[2..]);
  }

  lemma PrintsTwo(d: seq<byte>, p: nat)
    requires ReadsAs(d, p, [LC, LC])
    ensures HostText(d, p) == Some([99, 46, 99, 46])
  {
    PrintsAs(d, p, [LC, LC]);
    assert Dotted([LC]) == [99, 46] + Dotted([]) && Dotted([LC, LC]) == [99, 46] + Dotted([LC]);
    assert [99, 46] + ([99, 46] + []) == [99, 46, 99, 46];
  }

  lemma MislabelledFrom(s0: State, size: nat) returns (s1: State, s2: State)
    requires Empty(s0) && 64 <= size
    ensures Takes(s0, size, REPEATING, s1) && Takes(s1, size, SHORTER, s2)
    ensures |s1.d| == 25 && HostText(s2.d, 25) == Some([99, 46, 99, 46])
  {
    RepeatingName(REPEATING);
    ShorterName(SHORTER);
    s1, s2 := TwoMislead(s0, size, REPEATING, SHORTER, [LA, LB, LC, LC]);
    PrintsTwo(s2.d, 25);
  }

  /**
   Two questions pushed to an empty packet: a.b.c.c, and then a.c, whose owner name then reads c.c.
   */
  lemma {:induction false} RepeatedLabelsMislead(size: nat) returns (s1: State, s2: State)
    requires 64 <= size <= 65535
    ensures Takes(EMPTY, size, REPEATING, s1) && Takes(s1, size, SHORTER, s2)
    ensures |s1.d| == 25 && HostText(s2.d, 25) == Some([99, 46, 99, 46])
  {
    EmptyIs();
    s1, s2 := MislabelledFrom(EMPTY, size);
  }
}
