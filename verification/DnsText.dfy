/** Names as dotted text: what is written for a text, read back and printed, is that text up to case and a final dot. */
module DnsText {
  import opened Bytes
  import opened DnsWalk
  import opened DnsRead
  import opened DnsCompress
  import opened DnsCompressSound

  function Dotted(ls: seq<Label>): seq<byte> {
    if ls == [] then [] else ls[0] + [DOT] + Dotted(ls[1..])
  }

  /** `text` with the final dot that stands for the root. */
  function Anchored(text: seq<byte>): seq<byte> {
    if text != [] && text[|text| - 1] == DOT then text else text + [DOT]
  }

  lemma AnchorJoin(a: seq<byte>, b: seq<byte>)
    requires b != []
    ensures Anchored(a + b) == a + Anchored(b)
  {
    assert (a + b)[|a + b| - 1] == b[|b| - 1];
    assert a + b + [DOT] == a + (b + [DOT]);
  }

  lemma LastJoins(l: Label)
    requires l != [] && l[|l| - 1] != DOT
    ensures Dotted([l]) == Anchored(l)
  {
    assert Dotted([l]) == l + [DOT] + [];
  }

  lemma DotJoins(l: Label, rest: seq<Label>, b: seq<byte>)
    requires if b == [] then rest == [] else Dotted(rest) == Anchored(b)
    ensures Dotted([l] + rest) == Anchored(l + [DOT] + b)
  {
    assert ([l] + rest)[1..] == rest;
    if b != [] {
      AnchorJoin(l + [DOT], b);
    }
  }

  lemma DotSplits(s: seq<byte>, p: nat, x: nat)
    requires p <= x < |s| && s[x] == DOT
    ensures s[p..x] + [DOT] + s[x + 1..] == s[p..]
  {
  }

  lemma {:induction false} SplitJoins(s: seq<byte>, p: nat, x: nat)
    requires p <= x <= |s| && p < |s| && forall i :: p <= i < x ==> s[i] != DOT
    ensures Dotted(SplitFrom(s, p, x)) == Anchored(s[p..])
    decreases |s| - x
  {
    if x == |s| {
      LastJoins(s[p..]);
      assert s[p..x] == s[p..];
    } else if s[x] != DOT {
      SplitJoins(s, p, x + 1);
    } else {
      if x + 1 < |s| {
        SplitJoins(s, x + 1, x + 1);
      }
      DotJoins(s[p..x], SplitFrom(s, x + 1, x + 1), s[x + 1..]);
      DotSplits(s, p, x);
    }
  }

  lemma {:induction false} EmitIsDotted(out: seq<byte>, ls: Labels)
    ensures Emit(out, ls) == out + Dotted(ToSeq(ls))
    decreases ls
  {
    if ls == Nil {
      assert out + [] == out;
    } else {
      EmitIsDotted(out + (ls.first + [DOT]), ls.rest);
      assert ([ls.first] + ToSeq(ls.rest))[1..] == ToSeq(ls.rest);
      assert out + (ls.first + [DOT]) + Dotted(ToSeq(ls.rest)) == out + (ls.first + [DOT] + Dotted(ToSeq(ls.rest)));
    }
  }

  lemma {:induction false} DottedSame(a: seq<Label>, b: seq<Label>)
    requires SameNames(a, b) && NulFree(a) && NulFree(b)
    ensures LowerAll(Dotted(a)) == LowerAll(Dotted(b))
  {
    if a != [] {
      forall i | 0 <= i < |a[1..]| ensures CaseEq(a[1..][i], b[1..][i]) {
        assert CaseEq(a[i + 1], b[i + 1]);
      }
      DottedSame(a[1..], b[1..]);
      CStrOfText(a[0]);
      CStrOfText(b[0]);
      assert CaseEq(a[0], b[0]);
      LowerJoin(a[0] + [DOT], Dotted(a[1..]));
      LowerJoin(b[0] + [DOT], Dotted(b[1..]));
      LowerJoin(a[0], [DOT]);
      LowerJoin(b[0], [DOT]);
    }
  }

  lemma LowerJoin(s: seq<byte>, t: seq<byte>)
    ensures LowerAll(s + t) == LowerAll(s) + LowerAll(t)
  {
  }

  /** Names that read back as `text` print as `text`, anchored, up to case. */
  lemma {:induction false} ReadsBackText(d: seq<byte>, cap: nat, p: nat, text: seq<byte>)
    requires IsName(text) && NulFree(LabelsOf(text)) && ReadsBack(d, cap, p, LabelsOf(text))
    ensures LowerAll(Text(NameAt(View(d, 12, cap), p).labels)) == LowerAll(Anchored(text))
  {
    var ls, got := LabelsOf(text), NameAt(View(d, 12, cap), p).labels;
    NameLabels(text);
    EmitIsDotted([], got);
    DottedSame(ToSeq(got), ls);
    if text == [DOT] {
      assert ToSeq(got) == [];
    } else {
      SplitJoins(text, 0, 0);
      assert text[0..] == text;
      assert got != Nil;
      assert Text(got) == Dotted(ToSeq(got));
    }
  }
}
